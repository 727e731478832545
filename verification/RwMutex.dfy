/**
 The mutex object, updated in place as its lock's critical sections do: the queue is a linked
 list of waiters with a head and a tail, and a release strings the waiters it grants onto a
 second list through the same links.
 */
module RwMutexObject {
  import opened Common
  import opened MutexSpec

  /** A waiter and its release context.  `gate` counts the grants that its gate has got; `sends`,
      those on their way to it, is history. */
  class Waiter {
    ghost const id: nat    // its number in the order of requests
    const writer: bool
    var next: Waiter?
    var acquired: bool
    var handled: bool
    var gate: nat
    ghost var sends: nat

    constructor (ghost id: nat, writer: bool)
      ensures this.id == id && this.writer == writer && next == null
      ensures !acquired && !handled && gate == 0 && sends == 0
    {
      this.id, this.writer := id, writer;
      next, acquired, handled, gate, sends := null, false, false, 0, 0;
    }

    ghost function View(): Handle
      reads this`acquired, this`handled, this`gate, this`sends
    {
      Handle(writer, acquired, handled, sends, gate)
    }
  }

  /** The links lead from first through ws to last, and end there. */
  ghost predicate Linked(ws: seq<Waiter>, first: Waiter?, last: Waiter?)
    reads ws`next
  {
    && NoDup(ws)
    && first == (if ws == [] then null else ws[0]) && last == (if ws == [] then null else ws[|ws| - 1])
    && (forall i {:trigger ws[i].next} :: 0 <= i < |ws| - 1 ==> ws[i].next == ws[i + 1])
    && (ws != [] ==> ws[|ws| - 1].next == null)
  }

  ghost predicate Apart(a: seq<Waiter>, b: seq<Waiter>) { forall w :: w in a ==> w !in b }

  /** The handles are what the waiters hold. */
  ghost predicate Mirrors(ws: seq<Waiter>, hs: seq<Handle>)
    reads ws`acquired, ws`handled, ws`gate, ws`sends
  {
    |hs| == |ws| && forall i :: 0 <= i < |ws| ==> ws[i].id == i && hs[i] == ws[i].View()
  }

  /** The waiter's number is its place among all waiters. */
  ghost predicate Known(ws: seq<Waiter>, w: Waiter) { w.id < |ws| && ws[w.id] == w }

  /** The numbers of the queued waiters. */
  ghost predicate Numbers(ws: seq<Waiter>, nodes: seq<Waiter>, ids: seq<nat>) {
    |ids| == |nodes| && forall i :: 0 <= i < |nodes| ==> Known(ws, nodes[i]) && nodes[i].id == ids[i]
  }

  class RwMutex {
    var readers: nat
    var writerActive: bool
    var waitingWriters: int
    var head: Waiter?
    var tail: Waiter?
    ghost var nodes: seq<Waiter>      // the queue
    ghost var queue: seq<nat>         // the numbers of its waiters
    ghost var waiters: seq<Waiter>    // every waiter made, by number
    ghost var handles: seq<Handle>    // what they hold

    ghost predicate Tied()
      reads this`nodes, this`queue, this`waiters, this`handles, this`head, this`tail
      reads nodes`next, waiters`acquired, waiters`handled, waiters`gate, waiters`sends
    {
      Linked(nodes, head, tail) && Mirrors(waiters, handles) && Numbers(waiters, nodes, queue)
    }

    ghost function Abs(): Mutex
      reads this
    {
      Mutex(readers, writerActive, waitingWriters, queue, handles)
    }

    constructor ()
      ensures Tied() && waiters == [] && Abs() == Unlocked && Valid(Abs())
    {
      readers, writerActive, waitingWriters, head, tail := 0, false, 0, null, null;
      nodes, queue, waiters, handles := [], [], [], [];
    }

    /** mutex_enqueue */
    method Enqueue(w: Waiter)
      requires Linked(nodes, head, tail) && w !in nodes
      modifies this`head, this`tail, this`nodes, nodes`next, w`next
      ensures Linked(nodes, head, tail) && nodes == old(nodes) + [w]
    {
      ghost var was := nodes;
      w.next := null;
      if tail == null {
        head := w;
        tail := w;
      } else {
        tail.next := w;
        tail := w;
      }
      nodes := nodes + [w];
      assert forall i :: 0 <= i < |was| - 1 ==> was[i] != was[|was| - 1];
    }

    /** mutex_dequeue */
    method Dequeue() returns (w: Waiter)
      requires Linked(nodes, head, tail) && head != null
      modifies this`head, this`tail, this`nodes, head`next
      ensures Linked(nodes, head, tail) && w == old(nodes)[0] && nodes == old(nodes)[1..] && w !in nodes
              && w.next == null
    {
      w := head;
      head := w.next;
      if head == null { tail := null; }
      w.next := null;
      nodes := nodes[1..];
    }

    /** Mark a waiter granted; a grant is then on its way to its gate. */
    method Mark(w: Waiter)
      requires Mirrors(waiters, handles) && Known(waiters, w)
      modifies w`acquired, w`sends, this`handles
      ensures Mirrors(waiters, handles)
      ensures handles == old(handles[w.id := handles[w.id].(acquired := true, sends := handles[w.id].sends + 1)])
    {
      w.acquired := true;
      w.sends := w.sends + 1;
      handles := handles[w.id := w.View()];
    }

    /** The lock goes to a waiter. */
    method Hold(w: Waiter)
      requires Tied() && Known(waiters, w)
      modifies this`readers, this`writerActive, w`acquired, w`sends, this`handles
      ensures Tied()
      ensures handles == old(handles[w.id := handles[w.id].(acquired := true, sends := handles[w.id].sends + 1)])
      ensures writerActive == (old(writerActive) || w.writer)
      ensures readers == (if w.writer then old(readers) else old(readers) + 1)
    {
      if w.writer { writerActive := true; } else { readers := readers + 1; }
      Mark(w);
    }

    /** A waiter joins the queue. */
    method Join(w: Waiter)
      requires Tied() && w !in nodes && Known(waiters, w)
      modifies this`head, this`tail, this`nodes, this`queue, this`waitingWriters, nodes`next, w`next
      ensures Tied() && queue == old(queue) + [w.id]
      ensures waitingWriters == (if w.writer then old(waitingWriters) + 1 else old(waitingWriters))
    {
      Enqueue(w);
      queue := queue + [w.id];
      if w.writer { waitingWriters := waitingWriters + 1; }
    }

    /** A new waiter is known under the next number. */
    method NewWaiter(writer: bool) returns (w: Waiter)
      requires Tied()
      modifies this`waiters, this`handles
      ensures Tied() && fresh(w) && w.writer == writer && w.id == |old(waiters)| && Known(waiters, w) && w !in nodes
      ensures waiters == old(waiters) + [w] && handles == old(handles) + [Handle(writer, false, false, 0, 0)]
    {
      w := new Waiter(|waiters|, writer);
      waiters := waiters + [w];
      handles := handles + [w.View()];
    }

    predicate Free(writer: bool)
      reads this
    {
      !writerActive && head == null && (if writer then readers == 0 else waitingWriters == 0)
    }

    /** mutex_lock_request, with the lock held: granted at once or queued. */
    method Admit(writer: bool) returns (w: Waiter)
      requires Tied()
      modifies this, nodes`next
      ensures Tied() && Abs() == Request(old(Abs()), writer) && fresh(w) && waiters == old(waiters) + [w]
    {
      w := NewWaiter(writer);
      if Free(writer) { Hold(w); } else { Join(w); }
    }

    method LockRequest(writer: bool) returns (w: Waiter)
      requires Tied() && Valid(Abs())
      modifies this, nodes`next
      ensures Tied() && Valid(Abs()) && Abs() == Request(old(Abs()), writer)
      ensures fresh(w) && waiters == old(waiters) + [w]
    {
      RequestOk(Abs(), writer);
      w := Admit(writer);
    }

    /** The head leaves the queue. */
    method Shift() returns (w: Waiter)
      requires Tied() && head != null
      modifies this`head, this`tail, this`nodes, this`queue, head`next
      ensures Tied() && w == old(nodes)[0] && nodes == old(nodes)[1..] && w !in nodes && w.next == null
      ensures Known(waiters, w) && |old(queue)| > 0 && w.id == old(queue)[0] && queue == old(queue)[1..]
    {
      NumbersTail(waiters, nodes, queue);
      w := Dequeue();
      queue := queue[1..];
    }

    /** Grant the head of the queue. */
    method GrantOne() returns (w: Waiter)
      requires Tied() && head != null && InRange(Abs())
      modifies this`readers, this`writerActive, this`waitingWriters, this`head, this`tail, this`nodes, this`queue
      modifies this`handles, head`next, head`acquired, head`sends
      ensures Tied() && w == old(nodes)[0] && nodes == old(nodes)[1..] && w !in nodes && w.next == null
      ensures Abs() == GrantHead(old(Abs()))
    {
      ghost var was := Abs();
      w := Shift();
      Promote(w);
      GrantHeadIs(was, Abs(), w.id);
    }

    /** A waiter that has left the queue gets the lock. */
    method Promote(w: Waiter)
      requires Tied() && Known(waiters, w)
      modifies this`readers, this`writerActive, this`waitingWriters, w`acquired, w`sends, this`handles
      ensures Tied() && w.id < |old(handles)|
      ensures var x := old(handles)[w.id];
              && handles == old(handles)[w.id := x.(acquired := true, sends := x.sends + 1)]
              && writerActive == (old(writerActive) || x.writer)
              && readers == (if x.writer then old(readers) else old(readers) + 1)
              && waitingWriters == if x.writer then old(waitingWriters) - 1 else old(waitingWriters)
    {
      if w.writer { waitingWriters := waitingWriters - 1; }
      Hold(w);
    }

    /** Grant the head of the queue and string it onto the waiters granted before it. */
    method GrantNext(first: Waiter?, last: Waiter?, ghost all: seq<Waiter>, ghost k: nat)
        returns (first': Waiter?, w: Waiter)
      requires Tied() && head != null && InRange(Abs())
      requires NoDup(all) && k < |all| && nodes == all[k..] && Linked(all[..k], first, last)
      modifies this`readers, this`writerActive, this`waitingWriters, this`head, this`tail, this`nodes, this`queue
      modifies this`handles, all`next, head`acquired, head`sends
      ensures Tied() && nodes == all[k + 1..] && Linked(all[..k + 1], first', w)
      ensures Abs() == GrantHead(old(Abs()))
    {
      Splits(all, k);
      w := GrantOne();
      first' := Append(first, last, all[..k], w);
    }

    /** String a waiter that has left the queue onto the end of another list. */
    method Append(first: Waiter?, last: Waiter?, ghost granted: seq<Waiter>, w: Waiter) returns (first': Waiter?)
      requires Tied() && Linked(granted, first, last) && Apart(granted, nodes) && w !in granted && w.next == null
      modifies granted`next
      ensures Tied() && Linked(granted + [w], first', w)
    {
      forall i | 0 <= i < |nodes| ensures nodes[i] !in granted { assert nodes[i] in nodes; }
      first' := Chain(first, last, granted, w);
    }

    /** The readers at the head of the queue, strung onto a list of their own. */
    method GrantBatch() returns (first: Waiter?, ghost k: nat)
      requires Tied() && InRange(Abs())
      modifies this`readers, this`writerActive, this`waitingWriters, this`head, this`tail, this`nodes, this`queue
      modifies this`handles
      modifies nodes`next, nodes`acquired, nodes`sends
      ensures Tied() && Abs() == GrantReaders(old(Abs()))
      ensures k <= |old(nodes)| && nodes == old(nodes)[k..] && Listed(old(nodes)[..k], first)
    {
      ghost var all := nodes; ghost var goal := GrantReaders(Abs());
      var last: Waiter? := null;
      first, k := null, 0;
      while head != null && !head.writer
        invariant Tied() && InRange(Abs()) && GrantReaders(Abs()) == goal
        invariant k <= |all| && nodes == all[k..] && Linked(all[..k], first, last)
        decreases |nodes|
      {
        first, last := GrantNext(first, last, all, k);
        k := k + 1;
      }
    }

    /** The grant decision of mutex_release; returns the list of the waiters granted. */
    method GrantQueue() returns (first: Waiter?, ghost k: nat)
      requires Tied() && InRange(Abs())
      modifies this`readers, this`writerActive, this`waitingWriters, this`head, this`tail, this`nodes, this`queue
      modifies this`handles
      modifies nodes`next, nodes`acquired, nodes`sends
      ensures Tied() && Abs() == Grant(old(Abs()))
      ensures k <= |old(nodes)| && nodes == old(nodes)[k..] && Listed(old(nodes)[..k], first)
    {
      first, k := null, 0;
      if !writerActive && readers == 0 && head != null {
        HeadKind();
        if head.writer {
          first := GrantOne();
          k := 1;
          assert old(nodes)[..1] == [first] && old(nodes)[1..] == nodes;
        } else {
          first, k := GrantBatch();
        }
      }
    }

    lemma HeadKind()
      requires Tied() && head != null
      ensures nodes != [] && queue != [] && head == nodes[0] && head.id == queue[0] && head.id < |handles|
      ensures handles[head.id].writer == head.writer
    {
    }

    /** mutex_release, with the lock held. */
    method ReleaseLock(writer: bool) returns (first: Waiter?, ghost k: nat)
      requires Tied() && InRange(Abs())
      modifies this`readers, this`writerActive, this`waitingWriters, this`head, this`tail, this`nodes, this`queue
      modifies this`handles
      modifies nodes`next, nodes`acquired, nodes`sends
      ensures Tied() && Abs() == Release(old(Abs()), writer)
      ensures k <= |old(nodes)| && nodes == old(nodes)[k..] && Listed(old(nodes)[..k], first)
    {
      LetGo(writer);
      first, k := GrantQueue();
    }

    method LetGo(writer: bool)
      requires Tied() && InRange(Abs())
      modifies this`readers, this`writerActive
      ensures Tied() && InRange(Abs()) && Grant(Abs()) == Release(old(Abs()), writer)
    {
      if writer {
        writerActive := false;
      } else if readers > 0 {
        readers := readers - 1;
      }
    }

    /** Unlink the waiter at position i, whose predecessor is given, and repair the tail. */
    method Unlink(prev: Waiter?, cur: Waiter, ghost i: nat)
      requires Linked(nodes, head, tail) && i < |nodes| && cur == nodes[i]
               && prev == (if i == 0 then null else nodes[i - 1])
      modifies this`head, this`tail, this`nodes, nodes`next
      ensures Linked(nodes, head, tail) && nodes == old(nodes)[..i] + old(nodes)[i + 1..]
    {
      if prev == null {
        head := cur.next;
      } else {
        prev.next := cur.next;
      }
      if tail == cur { tail := prev; }
      nodes := nodes[..i] + nodes[i + 1..];
    }

    /** The search of mutex_cancel_waiter. */
    method Find(target: Waiter) returns (prev: Waiter?, cur: Waiter?, ghost i: nat)
      requires Linked(nodes, head, tail)
      ensures i <= |nodes| && cur == (if i == |nodes| then null else nodes[i])
              && prev == (if i == 0 then null else nodes[i - 1])
      ensures target !in nodes[..i] && (cur != null ==> cur == target)
    {
      prev, cur, i := null, head, 0;
      while cur != null && cur != target
        invariant i <= |nodes| && cur == (if i == |nodes| then null else nodes[i])
        invariant prev == (if i == 0 then null else nodes[i - 1]) && target !in nodes[..i]
        decreases |nodes| - i
      {
        prev := cur;
        cur := cur.next;
        i := i + 1;
      }
    }

    /** A waiter that is found leaves the queue. */
    method Remove(prev: Waiter?, cur: Waiter, ghost i: nat)
      requires Tied() && i < |nodes| && cur == nodes[i] && prev == (if i == 0 then null else nodes[i - 1])
      modifies this`head, this`tail, this`nodes, this`queue, nodes`next
      ensures Tied() && queue == Without(old(queue), cur.id)
    {
      WithoutAtId(waiters, nodes, queue, i);
      Unlink(prev, cur, i);
      queue := queue[..i] + queue[i + 1..];
    }

    /** mutex_cancel_waiter */
    method CancelWaiter(target: Waiter)
      requires Tied() && Known(waiters, target)
      modifies this`head, this`tail, this`nodes, this`queue, this`waitingWriters, nodes`next
      ensures Tied() && Abs() == Cancel(old(Abs()), target.id)
    {
      var prev, cur, i := Find(target);
      FoundById(waiters, nodes, queue, target, i);
      if cur != null { Withdraw(prev, cur, i); }
    }

    method Withdraw(prev: Waiter?, cur: Waiter, ghost i: nat)
      requires Tied() && i < |nodes| && cur == nodes[i] && prev == (if i == 0 then null else nodes[i - 1])
      modifies this`head, this`tail, this`nodes, this`queue, this`waitingWriters, nodes`next
      ensures Tied() && queue == Without(old(queue), cur.id)
      ensures waitingWriters == if cur.writer && old(waitingWriters) > 0 then old(waitingWriters) - 1
              else old(waitingWriters)
    {
      Remove(prev, cur, i);
      if cur.writer && waitingWriters > 0 {
        waitingWriters := waitingWriters - 1;
      }
    }

    /** The exchange of `handled`. */
    method TakeTurn(w: Waiter) returns (first: bool)
      requires Tied() && Known(waiters, w)
      modifies this`handles, w`handled
      ensures Tied() && first == !old(w.handled) && w.handled
      ensures handles == old(handles[w.id := handles[w.id].(handled := true)])
    {
      first := !w.handled;
      w.handled := true;
      handles := handles[w.id := w.View()];
    }

    /** mutex_on_lock_channel_closed: releases a granted handle, cancels a waiting one, and does
        either only the first time. */
    method Closed(w: Waiter) returns (first: Waiter?, ghost k: nat)
      requires Tied() && InRange(Abs()) && Known(waiters, w)
      modifies this, nodes, w`handled
      ensures Tied() && waiters == old(waiters) && Abs() == Close(old(Abs()), w.id)
      ensures k <= |old(nodes)| && Listed(old(nodes)[..k], first)
      ensures k > 0 ==> nodes == old(nodes)[k..]
    {
      first, k := null, 0;
      var mine := TakeTurn(w);
      if mine {
        if w.acquired {
          first, k := ReleaseLock(w.writer);
        } else {
          CancelWaiter(w);
        }
      }
    }

    method OnGateClosed(w: Waiter) returns (first: Waiter?, ghost k: nat)
      requires Tied() && Valid(Abs()) && Known(waiters, w)
      modifies this, nodes, w`handled
      ensures Tied() && waiters == old(waiters) && Valid(Abs()) && Abs() == Close(old(Abs()), w.id)
      ensures k <= |old(nodes)| && Listed(old(nodes)[..k], first)
      ensures k > 0 ==> nodes == old(nodes)[k..]
    {
      CloseOk(Abs(), w.id);
      first, k := Closed(w);
    }

    /** One grant goes into its gate. */
    method SendGrant(w: Waiter)
      requires Tied() && Known(waiters, w) && w.sends > 0
      modifies this`handles, w`gate, w`sends
      ensures Tied() && w.id < |old(handles)| && old(handles)[w.id].sends > 0
      ensures handles == old(handles)[w.id := Delivered(old(handles)[w.id])]
    {
      w.sends := w.sends - 1;
      if !w.handled { w.gate := w.gate + 1; }
      handles := handles[w.id := w.View()];
    }

    /** After the lock is released the grants go out along the list: each waiter on it gets its
        one, and nobody else. */
    method SendGrants(first: Waiter?, ghost ws: seq<Waiter>)
      requires Tied() && Listed(ws, first) && forall i :: 0 <= i < |ws| ==> Known(waiters, ws[i]) && ws[i].sends > 0
      modifies this`handles, ws`gate, ws`sends
      ensures Tied() && SentTo(ws, |ws|, old(handles), handles)
    {
      var it := first;
      ghost var j := 0; ghost var was := handles;
      while it != null
        invariant Tied() && j <= |ws| && it == (if j == |ws| then null else ws[j]) && SentTo(ws, j, was, handles)
        invariant forall i :: j <= i < |ws| ==> ws[i].sends > 0
        decreases |ws| - j
      {
        ghost var now := handles;
        SendGrant(it);
        SentStep(waiters, ws, j, was, now);
        it := it.next;
        j := j + 1;
      }
    }
  }

  /** Waiter h is one of the first j. */
  ghost predicate Among(ws: seq<Waiter>, j: nat, h: nat)
    requires j <= |ws|
  {
    exists i :: 0 <= i < j && ws[i].id == h
  }

  /** Each of the first j waiters has got its grant, and nobody else one. */
  ghost predicate SentTo(ws: seq<Waiter>, j: nat, was: seq<Handle>, now: seq<Handle>)
    requires j <= |ws|
  {
    |now| == |was| && forall h :: 0 <= h < |now| ==>
      if Among(ws, j, h) then was[h].sends > 0 && now[h] == Delivered(was[h]) else now[h] == was[h]
  }

  lemma SentStep(all: seq<Waiter>, ws: seq<Waiter>, j: nat, was: seq<Handle>, now: seq<Handle>)
    requires NoDup(ws) && (forall i :: 0 <= i < |ws| ==> Known(all, ws[i])) && j < |ws| && SentTo(ws, j, was, now)
    requires ws[j].id < |now| && now[ws[j].id].sends > 0
    ensures SentTo(ws, j + 1, was, now[ws[j].id := Delivered(now[ws[j].id])])
  {
    var id := ws[j].id; var after := now[id := Delivered(now[id])];
    assert !Among(ws, j, id);
    forall h | 0 <= h < |after|
      ensures if Among(ws, j + 1, h) then was[h].sends > 0 && after[h] == Delivered(was[h]) else after[h] == was[h]
    {
      if h != id {
        if Among(ws, j + 1, h) { var i :| 0 <= i < j + 1 && ws[i].id == h; assert Among(ws, j, h); }
        if Among(ws, j, h) { var i :| 0 <= i < j && ws[i].id == h; assert Among(ws, j + 1, h); }
      }
    }
  }

  lemma FoundById(ws: seq<Waiter>, nodes: seq<Waiter>, ids: seq<nat>, target: Waiter, i: nat)
    requires Numbers(ws, nodes, ids) && Known(ws, target)
    requires i <= |nodes| && target !in nodes[..i] && (i < |nodes| ==> nodes[i] == target)
    ensures target.id in ids <==> i < |nodes|
  {
    if target.id in ids {
      var j :| 0 <= j < |ids| && ids[j] == target.id;
      assert Known(ws, nodes[j]) && nodes[j] in nodes;
    }
    if i < |nodes| { assert ids[i] == target.id; }
  }

  lemma WithoutAtId(ws: seq<Waiter>, nodes: seq<Waiter>, ids: seq<nat>, i: nat)
    requires Numbers(ws, nodes, ids) && NoDup(nodes) && i < |nodes|
    ensures ids[..i] + ids[i + 1..] == Without(ids, nodes[i].id)
    ensures Numbers(ws, nodes[..i] + nodes[i + 1..], ids[..i] + ids[i + 1..])
  {
    forall j | 0 <= j < i ensures ids[j] != ids[i] { assert Known(ws, nodes[j]) && Known(ws, nodes[i]); }
    WithoutFirst(ids, ids[i], i);
  }

  /** The links lead from first through ws and end there. */
  ghost predicate Listed(ws: seq<Waiter>, first: Waiter?)
    reads ws`next
  {
    Linked(ws, first, if ws == [] then null else ws[|ws| - 1])
  }

  lemma NumbersTail(ws: seq<Waiter>, nodes: seq<Waiter>, ids: seq<nat>)
    requires Numbers(ws, nodes, ids) && nodes != []
    ensures Known(ws, nodes[0]) && nodes[0].id == ids[0] && Numbers(ws, nodes[1..], ids[1..])
  {
  }

  lemma Splits(all: seq<Waiter>, k: nat)
    requires NoDup(all) && k < |all|
    ensures all[k..][0] == all[k] && all[k..][1..] == all[k + 1..] && all[..k] + [all[k]] == all[..k + 1]
    ensures all[k] !in all[..k] && Apart(all[..k], all[k..]) && Apart(all[..k], all[k + 1..])
  {
  }

  lemma GrantHeadIs(m: Mutex, r: Mutex, h: nat)
    requires InRange(m) && m.queue != [] && m.queue[0] == h && r.queue == m.queue[1..] && h < |m.handles|
    requires var x := m.handles[h];
             && r.handles == m.handles[h := x.(acquired := true, sends := x.sends + 1)]
             && r.writerActive == (m.writerActive || x.writer)
                 && r.readers == (if x.writer then m.readers else m.readers + 1)
             && r.waitingWriters == if x.writer then m.waitingWriters - 1 else m.waitingWriters
    ensures r == GrantHead(m)
  {
  }

  /** String a waiter onto the end of a list. */
  method Chain(first: Waiter?, last: Waiter?, ghost granted: seq<Waiter>, w: Waiter) returns (first': Waiter?)
    requires Linked(granted, first, last) && w !in granted && w.next == null
    modifies granted`next
    ensures Linked(granted + [w], first', w) && w.next == null
  {
    if last == null {
      first' := w;
    } else {
      first' := first;
      last.next := w;
    }
    assert forall i :: 0 <= i < |granted| - 1 ==> granted[i] != granted[|granted| - 1];
  }
}
