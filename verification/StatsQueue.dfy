/**
 The statistics queue: any number of threads push events with an exchange of the head followed
 by a store of the link, one consumer pops and frees the old sentinel, and a flusher waits for
 a barrier it pushed.  Every atomic access, every allocation and every free is a step, and an
 address that was freed may be handed out again by a later allocation.
 */
module StatsQueue {
  import opened Common

  datatype Item = Item(event: nat, barrier: bool)

  datatype Node = Node(next: Option<nat>, item: Item)

  /** Where a thread stands in sq_push or goc_stats_flush. */
  datatype Producer =
    | Idle
    | Cleared                                      // flush: g_flush_done reset
    | Made(node: nat, flush: bool)                 // node allocated, not yet exchanged
    | Swapped(node: nat, prev: nat, index: nat, flush: bool)   // head exchanged, link not yet stored
    | Waiting(index: nat)                          // flush: waits for g_flush_done

  /** Where the loop thread stands in stats_on_async. */
  datatype Consumer =
    | Asleep
    | Ready                    // about to load the sentinel's link
    | Popping(next: nat)       // saw a linked node
    | Freeing(was: nat)        // advanced the tail, old sentinel not yet freed
    | Drained                  // found the queue empty

  /** `pushed` lists the items in the order of the exchanges, `popped` those handed to the
      callback, and `chain` the nodes from the sentinel to the head in the order of the
      exchanges; no guard reads these three. */
  datatype Queue = Queue(
    heap: map<nat, Node>, head: nat, tail: nat,
    producers: seq<Producer>, consumer: Consumer, saw: bool, done: bool,
    pushed: seq<Item>, popped: seq<Item>, chain: seq<nat>)

  datatype Step =
    | Clear(t: nat)
    | Make(t: nat, addr: nat, event: nat)
    | Swap(t: nat)
    | Link(t: nat)
    | Leave(t: nat)
    | Wake
    | Load
    | Advance
    | Free
    | Signal

  predicate Enabled(q: Queue, s: Step) {
    match s {
      case Clear(t) => t < |q.producers| && q.producers[t].Idle?
      case Make(t, addr, _) => t < |q.producers| && (q.producers[t].Idle? || q.producers[t].Cleared?) && addr !in q.heap
      case Swap(t) => t < |q.producers| && q.producers[t].Made?
      case Link(t) => t < |q.producers| && q.producers[t].Swapped?
      case Leave(t) => t < |q.producers| && q.producers[t].Waiting? && q.done
      case Wake => q.consumer.Asleep?
      case Load => q.consumer.Ready?
      case Advance => q.consumer.Popping?
      case Free => q.consumer.Freeing?
      case Signal => q.consumer.Drained?
    }
  }

  /** Every address the step reads, writes or frees is allocated. */
  predicate Safe(q: Queue, s: Step)
    requires Enabled(q, s)
  {
    match s {
      case Swap(t) => q.producers[t].node in q.heap
      case Link(t) => q.producers[t].prev in q.heap
      case Load => q.tail in q.heap
      case Advance => q.consumer.next in q.heap
      case Free => q.consumer.was in q.heap
      case _ => true
    }
  }

  function Next(q: Queue, s: Step): Queue
    requires Enabled(q, s) && Safe(q, s)
  {
    match s {
      case Clear(t) => q.(done := false, producers := q.producers[t := Cleared])
      case Make(t, addr, event) =>
        q.(heap := q.heap[addr := Node(None, Item(event, q.producers[t].Cleared?))],
           producers := q.producers[t := Made(addr, q.producers[t].Cleared?)])
      case Swap(t) =>
        var node := q.producers[t].node;
        q.(head := node, producers := q.producers[t := Swapped(node, q.head, |q.pushed|, q.producers[t].flush)],
           pushed := q.pushed + [q.heap[node].item], chain := q.chain + [node])
      case Link(t) =>
        var p := q.producers[t];
        q.(heap := q.heap[p.prev := q.heap[p.prev].(next := Some(p.node))],
           producers := q.producers[t := if p.flush then Waiting(p.index) else Idle])
      case Leave(t) => q.(producers := q.producers[t := Idle])
      case Wake => q.(consumer := Ready, saw := false)
      case Load =>
        q.(consumer := match q.heap[q.tail].next case None => Drained case Some(n) => Popping(n))
      case Advance =>
        var n := q.consumer.next; var x := q.heap[n].item;
        q.(consumer := Freeing(q.tail), tail := n, saw := q.saw || x.barrier, popped := q.popped + [x],
           chain := if q.chain == [] then [] else q.chain[1..])
      case Free => q.(consumer := Ready, heap := q.heap - {q.consumer.was})
      case Signal => q.(consumer := Asleep, saw := false, done := q.done || q.saw)
    }
  }

  /** sq_init: one sentinel at some address. */
  predicate Init(q: Queue) {
    && q.heap.Keys == {q.head} && q.heap[q.head].next == None && q.tail == q.head && q.chain == [q.head]
    && q.pushed == [] && q.popped == [] && q.consumer == Asleep && !q.saw && !q.done
    && forall t :: 0 <= t < |q.producers| ==> q.producers[t] == Idle
  }

  ghost predicate IsRun(run: seq<Queue>, steps: seq<Step>) {
    && |run| == |steps| + 1 && Init(run[0])
    && forall i :: 0 <= i < |steps| ==>
         Enabled(run[i], steps[i]) && (Safe(run[i], steps[i]) ==> run[i + 1] == Next(run[i], steps[i]))
  }

  // ------------------------------------------------------------------ invariant

  ghost predicate ChainOk(heap: map<nat, Node>, chain: seq<nat>, head: nat, tail: nat) {
    && chain != [] && NoDup(chain) && chain[0] == tail && chain[|chain| - 1] == head
    && (forall i :: 0 <= i < |chain| ==> chain[i] in heap)
    && heap[head].next == None
    && forall i {:trigger heap[chain[i]]} :: 0 <= i < |chain| - 1 ==>
         heap[chain[i]].next == None || heap[chain[i]].next == Some(chain[i + 1])
  }

  /** What was popped is a prefix of what was pushed, and the rest is in the chain. */
  ghost predicate ItemsOk(heap: map<nat, Node>, chain: seq<nat>, pushed: seq<Item>, popped: seq<Item>) {
    && popped <= pushed && |chain| == |pushed| - |popped| + 1
    && (forall i :: 0 <= i < |chain| ==> chain[i] in heap)
    && forall i :: 0 < i < |chain| ==> heap[chain[i]].item == pushed[|popped| + i - 1]
  }

  ghost predicate MadeOk(heap: map<nat, Node>, chain: seq<nat>, node: nat, flush: bool) {
    node in heap && node !in chain && heap[node].next == None && heap[node].item.barrier == flush
  }

  /** An unfinished push sits between two neighbours of the chain whose link is still open. */
  ghost predicate SwappedOk(heap: map<nat, Node>, chain: seq<nat>, pushed: seq<Item>, first: nat, p: Producer)
    requires p.Swapped?
  {
    && first <= p.index < |pushed| && p.index - first + 1 < |chain|
    && chain[p.index - first] == p.prev && chain[p.index - first + 1] == p.node
    && p.prev in heap && heap[p.prev].next == None
    && pushed[p.index].barrier == p.flush
  }

  ghost predicate ProducerOk(heap: map<nat, Node>, chain: seq<nat>, pushed: seq<Item>, first: nat, p: Producer) {
    match p {
      case Made(node, flush) => MadeOk(heap, chain, node, flush)
      case Swapped(_, _, _, _) => SwappedOk(heap, chain, pushed, first, p)
      case Waiting(k) => k < |pushed| && pushed[k].barrier
      case _ => true
    }
  }

  ghost predicate ProducersOk(ps: seq<Producer>, heap: map<nat, Node>, chain: seq<nat>, pushed: seq<Item>, first: nat) {
    forall t :: 0 <= t < |ps| ==> ProducerOk(heap, chain, pushed, first, ps[t])
  }

  predicate Apart(p: Producer, r: Producer) {
    && (p.Made? && r.Made? ==> p.node != r.node)
    && (p.Swapped? && r.Swapped? ==> p.index != r.index)
  }

  ghost predicate AllApart(ps: seq<Producer>) {
    forall t, u :: 0 <= t < |ps| && 0 <= u < |ps| && t != u ==> Apart(ps[t], ps[u])
  }

  ghost predicate ConsumerOk(c: Consumer, heap: map<nat, Node>, chain: seq<nat>, ps: seq<Producer>) {
    match c {
      case Popping(n) => |chain| > 1 && chain[0] in heap && heap[chain[0]].next == Some(n)
      case Freeing(o) => o in heap && o !in chain && forall t :: 0 <= t < |ps| && ps[t].Made? ==> ps[t].node != o
      case _ => true
    }
  }

  ghost predicate Inv(q: Queue) {
    && ChainOk(q.heap, q.chain, q.head, q.tail)
    && ItemsOk(q.heap, q.chain, q.pushed, q.popped)
    && ProducersOk(q.producers, q.heap, q.chain, q.pushed, |q.popped|)
    && AllApart(q.producers)
    && ConsumerOk(q.consumer, q.heap, q.chain, q.producers)
  }

  lemma InvSafe(q: Queue, s: Step)
    requires Inv(q) && Enabled(q, s)
    ensures Safe(q, s)
  {
    match s {
      case Swap(t) => assert ProducerOk(q.heap, q.chain, q.pushed, |q.popped|, q.producers[t]);
      case Link(t) => assert ProducerOk(q.heap, q.chain, q.pushed, |q.popped|, q.producers[t]);
      case Advance => assert q.heap[q.chain[0]].next == Some(q.chain[1]);
      case _ =>
    }
  }

  lemma InvMake(q: Queue, t: nat, addr: nat, event: nat)
    requires Inv(q) && Enabled(q, Make(t, addr, event))
    ensures Inv(Next(q, Make(t, addr, event)))
  {
    var n := Next(q, Make(t, addr, event));
    forall u | 0 <= u < |n.producers| ensures ProducerOk(n.heap, n.chain, n.pushed, |n.popped|, n.producers[u]) {
      assert ProducerOk(q.heap, q.chain, q.pushed, |q.popped|, q.producers[u]);
    }
    forall u | 0 <= u < |n.producers| && u != t ensures Apart(n.producers[t], n.producers[u]) {
      assert ProducerOk(q.heap, q.chain, q.pushed, |q.popped|, q.producers[u]);
    }
  }

  lemma SwapProducers(q: Queue, t: nat)
    requires Inv(q) && Enabled(q, Swap(t)) && Safe(q, Swap(t))
    ensures var n := Next(q, Swap(t));
            ProducersOk(n.producers, n.heap, n.chain, n.pushed, |n.popped|) && AllApart(n.producers)
  {
    var n := Next(q, Swap(t));
    assert ProducerOk(q.heap, q.chain, q.pushed, |q.popped|, q.producers[t]);
    forall u | 0 <= u < |n.producers| ensures ProducerOk(n.heap, n.chain, n.pushed, |n.popped|, n.producers[u]) {
      assert ProducerOk(q.heap, q.chain, q.pushed, |q.popped|, q.producers[u]);
      if u != t { assert Apart(q.producers[t], q.producers[u]); }
    }
    forall u | 0 <= u < |n.producers| && u != t ensures Apart(n.producers[t], n.producers[u]) {
      assert ProducerOk(q.heap, q.chain, q.pushed, |q.popped|, q.producers[u]);
    }
  }

  lemma InvSwap(q: Queue, t: nat)
    requires Inv(q) && Enabled(q, Swap(t)) && Safe(q, Swap(t))
    ensures Inv(Next(q, Swap(t)))
  {
    assert ProducerOk(q.heap, q.chain, q.pushed, |q.popped|, q.producers[t]);
    SwapProducers(q, t);
  }

  lemma LinkProducers(q: Queue, t: nat)
    requires Inv(q) && Enabled(q, Link(t)) && Safe(q, Link(t))
    ensures var n := Next(q, Link(t)); ProducersOk(n.producers, n.heap, n.chain, n.pushed, |n.popped|)
  {
    var n := Next(q, Link(t)); var p := q.producers[t];
    assert ProducerOk(q.heap, q.chain, q.pushed, |q.popped|, p);
    forall u | 0 <= u < |n.producers| ensures ProducerOk(n.heap, n.chain, n.pushed, |n.popped|, n.producers[u]) {
      assert ProducerOk(q.heap, q.chain, q.pushed, |q.popped|, q.producers[u]);
      if u != t { assert Apart(q.producers[t], q.producers[u]); }
    }
  }

  lemma LinkChain(heap: map<nat, Node>, chain: seq<nat>, head: nat, tail: nat, i: nat)
    requires ChainOk(heap, chain, head, tail) && i < |chain| - 1
    ensures ChainOk(heap[chain[i] := heap[chain[i]].(next := Some(chain[i + 1]))], chain, head, tail)
  {
  }

  lemma InvLink(q: Queue, t: nat)
    requires Inv(q) && Enabled(q, Link(t)) && Safe(q, Link(t))
    ensures Inv(Next(q, Link(t)))
  {
    LinkProducers(q, t);
    assert ProducerOk(q.heap, q.chain, q.pushed, |q.popped|, q.producers[t]);
    LinkChain(q.heap, q.chain, q.head, q.tail, q.producers[t].index - |q.popped|);
  }

  lemma AdvanceProducer(heap: map<nat, Node>, chain: seq<nat>, pushed: seq<Item>, first: nat, p: Producer)
    requires ProducerOk(heap, chain, pushed, first, p) && |chain| > 1 && chain[0] in heap && heap[chain[0]].next.Some?
    ensures ProducerOk(heap, chain[1..], pushed, first + 1, p)
  {
    assert p.Swapped? ==> p.index != first;
  }

  lemma AdvanceProducers(q: Queue)
    requires Inv(q) && Enabled(q, Advance) && Safe(q, Advance)
    ensures var n := Next(q, Advance); ProducersOk(n.producers, n.heap, n.chain, n.pushed, |n.popped|)
  {
    var n := Next(q, Advance);
    forall u | 0 <= u < |n.producers| ensures ProducerOk(n.heap, n.chain, n.pushed, |n.popped|, n.producers[u]) {
      assert ProducerOk(q.heap, q.chain, q.pushed, |q.popped|, q.producers[u]);
      AdvanceProducer(q.heap, q.chain, q.pushed, |q.popped|, q.producers[u]);
    }
  }

  lemma AdvanceChain(q: Queue)
    requires Inv(q) && Enabled(q, Advance) && Safe(q, Advance)
    ensures var n := Next(q, Advance);
            ChainOk(n.heap, n.chain, n.head, n.tail) && ItemsOk(n.heap, n.chain, n.pushed, n.popped)
  {
    var n := Next(q, Advance);
    assert q.heap[q.chain[0]].next == Some(q.chain[1]);
    assert forall i :: 0 <= i < |n.chain| ==> n.chain[i] == q.chain[i + 1];
    assert q.heap[q.chain[1]].item == q.pushed[|q.popped|];
  }

  lemma InvAdvance(q: Queue)
    requires Inv(q) && Enabled(q, Advance) && Safe(q, Advance)
    ensures Inv(Next(q, Advance))
  {
    AdvanceProducers(q);
    AdvanceChain(q);
    var n := Next(q, Advance);
    assert forall i :: 0 <= i < |n.chain| ==> n.chain[i] == q.chain[i + 1];
    forall u | 0 <= u < |n.producers| && n.producers[u].Made? ensures n.producers[u].node != q.tail {
      assert ProducerOk(q.heap, q.chain, q.pushed, |q.popped|, q.producers[u]);
    }
  }

  lemma InvFree(q: Queue)
    requires Inv(q) && Enabled(q, Free) && Safe(q, Free)
    ensures Inv(Next(q, Free))
  {
    var n := Next(q, Free);
    forall u | 0 <= u < |n.producers| ensures ProducerOk(n.heap, n.chain, n.pushed, |n.popped|, n.producers[u]) {
      assert ProducerOk(q.heap, q.chain, q.pushed, |q.popped|, q.producers[u]);
    }
  }

  lemma InvNext(q: Queue, s: Step)
    requires Inv(q) && Enabled(q, s)
    ensures Safe(q, s) && Inv(Next(q, s))
  {
    InvSafe(q, s);
    match s {
      case Make(t, addr, event) => InvMake(q, t, addr, event);
      case Swap(t) => InvSwap(q, t);
      case Link(t) => InvLink(q, t);
      case Advance => InvAdvance(q);
      case Free => InvFree(q);
      case Clear(t) =>
      case Leave(t) =>
      case _ =>
    }
  }

  lemma {:induction false} InvRun(run: seq<Queue>, steps: seq<Step>, n: nat)
    requires IsRun(run, steps) && n < |run|
    ensures Inv(run[n])
    ensures n < |steps| ==> Safe(run[n], steps[n]) && run[n + 1] == Next(run[n], steps[n])
  {
    if n > 0 { InvRun(run, steps, n - 1); InvNext(run[n - 1], steps[n - 1]); }
    if n < |steps| { InvNext(run[n], steps[n]); }
  }

  // -------------------------------------------------------------- no leak, no stall

  ghost predicate OpenAt(ps: seq<Producer>, prev: nat) {
    exists t :: 0 <= t < |ps| && ps[t].Swapped? && ps[t].prev == prev
  }

  ghost predicate InHand(ps: seq<Producer>, a: nat) {
    exists t :: 0 <= t < |ps| && ps[t].Made? && ps[t].node == a
  }

  /** An open link inside the chain belongs to a push that is about to store it. */
  ghost predicate OpenOwned(heap: map<nat, Node>, chain: seq<nat>, ps: seq<Producer>) {
    forall i {:trigger chain[i]} :: 0 <= i < |chain| - 1 && chain[i] in heap && heap[chain[i]].next == None
        ==> OpenAt(ps, chain[i])
  }

  /** Every allocated node is in the chain, in the hands of a producer, or about to be freed. */
  ghost predicate Accounted(heap: map<nat, Node>, chain: seq<nat>, ps: seq<Producer>, c: Consumer) {
    forall a :: a in heap ==>
      a in chain || c == Freeing(a) || InHand(ps, a)
  }

  ghost predicate Tidy(q: Queue) {
    OpenOwned(q.heap, q.chain, q.producers) && Accounted(q.heap, q.chain, q.producers, q.consumer)
  }

  lemma OwnedOther(q: Queue, t: nat, p: Producer, i: nat)
    requires OpenOwned(q.heap, q.chain, q.producers) && t < |q.producers| && 0 <= i < |q.chain| - 1
    requires q.chain[i] in q.heap && q.heap[q.chain[i]].next == None
    requires q.producers[t].Swapped? ==> q.producers[t].prev != q.chain[i]
    ensures OpenAt(q.producers[t := p], q.chain[i])
  {
    var u :| 0 <= u < |q.producers| && q.producers[u].Swapped? && q.producers[u].prev == q.chain[i];
    assert q.producers[t := p][u] == q.producers[u];
  }

  lemma AccountedOther(q: Queue, t: nat, p: Producer, a: nat)
    requires Accounted(q.heap, q.chain, q.producers, q.consumer) && t < |q.producers| && a in q.heap && a !in q.chain
    requires q.consumer != Freeing(a) && (q.producers[t].Made? ==> q.producers[t].node != a)
    ensures InHand(q.producers[t := p], a)
  {
    var u :| 0 <= u < |q.producers| && q.producers[u].Made? && q.producers[u].node == a;
    assert q.producers[t := p][u] == q.producers[u];
  }

  lemma TidyProducer(q: Queue, s: Step)
    requires Inv(q) && Tidy(q) && Enabled(q, s) && Safe(q, s) && (s.Clear? || s.Leave? || s.Make?)
    ensures Tidy(Next(q, s))
  {
    var n := Next(q, s); var t := s.t;
    forall i | 0 <= i < |n.chain| - 1 && n.chain[i] in n.heap && n.heap[n.chain[i]].next == None
      ensures OpenAt(n.producers, n.chain[i])
    {
      OwnedOther(q, t, n.producers[t], i);
    }
    forall a | a in n.heap
      ensures a in n.chain || n.consumer == Freeing(a) || InHand(n.producers, a)
    {
      if s.Make? && a == s.addr { assert n.producers[t].node == a; }
      else if a !in q.chain && q.consumer != Freeing(a) { AccountedOther(q, t, n.producers[t], a); }
    }
  }

  lemma TidySwap(q: Queue, t: nat)
    requires Inv(q) && Tidy(q) && Enabled(q, Swap(t)) && Safe(q, Swap(t))
    ensures Tidy(Next(q, Swap(t)))
  {
    var n := Next(q, Swap(t));
    forall i | 0 <= i < |n.chain| - 1 && n.chain[i] in n.heap && n.heap[n.chain[i]].next == None
      ensures OpenAt(n.producers, n.chain[i])
    {
      if i == |q.chain| - 1 { assert n.producers[t].prev == n.chain[i]; }
      else { assert n.chain[i] == q.chain[i]; OwnedOther(q, t, n.producers[t], i); }
    }
    forall a | a in n.heap
      ensures a in n.chain || n.consumer == Freeing(a) || InHand(n.producers, a)
    {
      if a == q.producers[t].node { assert n.chain[|q.chain|] == a; }
      else if a in q.chain { assert a in n.chain; }
      else if q.consumer != Freeing(a) { AccountedOther(q, t, n.producers[t], a); }
    }
  }

  lemma TidyLink(q: Queue, t: nat)
    requires Inv(q) && Tidy(q) && Enabled(q, Link(t)) && Safe(q, Link(t))
    ensures Tidy(Next(q, Link(t)))
  {
    var n := Next(q, Link(t));
    forall i | 0 <= i < |n.chain| - 1 && n.chain[i] in n.heap && n.heap[n.chain[i]].next == None
      ensures OpenAt(n.producers, n.chain[i])
    {
      OwnedOther(q, t, n.producers[t], i);
    }
    forall a | a in n.heap
      ensures a in n.chain || n.consumer == Freeing(a) || InHand(n.producers, a)
    {
      if a !in q.chain && q.consumer != Freeing(a) { AccountedOther(q, t, n.producers[t], a); }
    }
  }

  lemma TidyAdvance(q: Queue)
    requires Inv(q) && Tidy(q) && Enabled(q, Advance) && Safe(q, Advance)
    ensures Tidy(Next(q, Advance))
  {
    var n := Next(q, Advance);
    forall i | 0 <= i < |n.chain| - 1 && n.chain[i] in n.heap && n.heap[n.chain[i]].next == None
      ensures OpenAt(n.producers, n.chain[i])
    {
      assert n.chain[i] == q.chain[i + 1];
    }
    forall a | a in n.heap && n.consumer != Freeing(a)
      ensures a in n.chain || InHand(n.producers, a)
    {
      if a in q.chain {
        var i :| 0 <= i < |q.chain| && q.chain[i] == a;
        assert n.chain[i - 1] == a;
      }
    }
  }

  lemma TidyNext(q: Queue, s: Step)
    requires Inv(q) && Tidy(q) && Enabled(q, s) && Safe(q, s)
    ensures Tidy(Next(q, s))
  {
    match s {
      case Swap(t) => TidySwap(q, t);
      case Link(t) => TidyLink(q, t);
      case Advance => TidyAdvance(q);
      case Clear(_) => TidyProducer(q, s);
      case Leave(_) => TidyProducer(q, s);
      case Make(_, _, _) => TidyProducer(q, s);
      case _ =>
    }
  }

  lemma {:induction false} TidyRun(run: seq<Queue>, steps: seq<Step>, n: nat)
    requires IsRun(run, steps) && n < |run|
    ensures Tidy(run[n])
  {
    if n > 0 {
      InvRun(run, steps, n - 1);
      TidyRun(run, steps, n - 1);
      TidyNext(run[n - 1], steps[n - 1]);
    }
  }

  // ------------------------------------------------------------------- theorems

  /** Events are handed out exactly once, in the order of the exchanges: at every moment what
      was popped is a prefix of what was pushed, and the queue holds the rest. */
  lemma PoppedInOrder(run: seq<Queue>, steps: seq<Step>, n: nat)
    requires IsRun(run, steps) && n < |run|
    ensures run[n].popped <= run[n].pushed
    ensures |run[n].chain| == |run[n].pushed| - |run[n].popped| + 1
    ensures forall i :: 0 < i < |run[n].chain| ==>
              run[n].chain[i] in run[n].heap
              && run[n].heap[run[n].chain[i]].item == run[n].pushed[|run[n].popped| + i - 1]
  {
    InvRun(run, steps, n);
  }

  /** No step touches a freed node, and the link a producer stores goes into the very node it
      exchanged away, still the last one before its own, even though addresses are reused. */
  lemma MemorySafe(run: seq<Queue>, steps: seq<Step>, n: nat)
    requires IsRun(run, steps) && n < |steps|
    ensures Safe(run[n], steps[n])
    ensures steps[n].Link? ==>
              var p := run[n].producers[steps[n].t]; var i := p.index - |run[n].popped|;
              && 0 <= i < |run[n].chain| - 1 && run[n].chain[i] == p.prev && run[n].chain[i + 1] == p.node
              && run[n].heap[p.prev].next == None
  {
    InvRun(run, steps, n);
    if steps[n].Link? {
      assert ProducerOk(run[n].heap, run[n].chain, run[n].pushed, |run[n].popped|, run[n].producers[steps[n].t]);
    }
  }

  /** Nothing is lost from the heap, and a drain stops only at the true end of the queue or
      in front of a push that has exchanged but not yet linked. */
  lemma NothingLost(run: seq<Queue>, steps: seq<Step>, n: nat)
    requires IsRun(run, steps) && n < |steps|
    ensures forall a :: a in run[n].heap ==>
              a in run[n].chain || run[n].consumer == Freeing(a) || InHand(run[n].producers, a)
    ensures steps[n] == Load && run[n + 1].consumer == Drained && run[n].popped != run[n].pushed ==>
              OpenAt(run[n].producers, run[n].tail)
  {
    InvRun(run, steps, n);
    TidyRun(run, steps, n);
  }
}
