/**
 What goc_stats_flush promises: it resets a flag, pushes a barrier and waits for the flag, which
 the consumer raises at the end of a drain in which it met any barrier at all.
 */
module StatsFlush {
  import opened Common
  import opened StatsQueue

  // -------------------------------------------------------------- when a flush is let go early

  /** Some push with an index from lo on and below hi has exchanged but not yet linked. */
  ghost predicate OpenIn(ps: seq<Producer>, lo: nat, hi: nat) {
    exists t :: 0 <= t < |ps| && ps[t].Swapped? && lo <= ps[t].index < hi
  }

  /** Barrier k is still queued, and a push between it and barrier b is unfinished, so that a
      drain can end after k and before b. */
  ghost predicate Stale(q: Queue, b: nat, k: nat) {
    |q.popped| <= k < b && k < |q.pushed| && q.pushed[k].barrier && OpenIn(q.producers, k + 1, b)
  }

  /** Something pushed before barrier b is not popped yet, and the flag is up already, or the
      present drain has met a barrier and may end before b, or a later drain may do so. */
  ghost predicate Exposed(q: Queue, b: nat) {
    && |q.popped| < b
    && (|| q.done
        || (q.saw && (q.consumer.Drained? || OpenIn(q.producers, |q.popped|, b)))
        || exists k: nat :: Stale(q, b, k))
  }

  /** The flush of t with barrier b may return although something pushed before b is queued. */
  ghost predicate Early(q: Queue, t: nat, b: nat) {
    t < |q.producers| && q.producers[t] == Waiting(b) && Enabled(q, Leave(t)) && |q.popped| < b
  }

  /** The unfinished push right after the sentinel. */
  lemma FrontOwner(q: Queue) returns (u: nat)
    requires Inv(q) && Tidy(q) && |q.popped| < |q.pushed| && q.heap[q.tail].next == None
    ensures u < |q.producers| && q.producers[u].Swapped? && q.producers[u].index == |q.popped|
    ensures q.producers[u].prev == q.tail
  {
    assert q.chain[0] in q.heap;
    u :| 0 <= u < |q.producers| && q.producers[u].Swapped? && q.producers[u].prev == q.chain[0];
    assert ProducerOk(q.heap, q.chain, q.pushed, |q.popped|, q.producers[u]);
  }

  lemma LoadBack(q: Queue, b: nat)
    requires Inv(q) && Tidy(q) && Enabled(q, Load) && Safe(q, Load) && b < |q.pushed| && Exposed(Next(q, Load), b)
    ensures Exposed(q, b)
  {
    var n := Next(q, Load);
    if k: nat :| Stale(n, b, k) { assert Stale(q, b, k); }
    else if !n.done && n.consumer.Drained? {
      var u := FrontOwner(q);
      assert OpenIn(q.producers, |q.popped|, b);
    }
  }

  lemma RestBack(q: Queue, s: Step, b: nat)
    requires Enabled(q, s) && Safe(q, s) && !s.Advance? && !s.Load? && b < |q.pushed| && Exposed(Next(q, s), b)
    ensures Exposed(q, b)
  {
    var n := Next(q, s);
    OpenBack(q, s, |q.popped|, b);
    if k: nat :| Stale(n, b, k) {
      OpenBack(q, s, k + 1, b);
      assert Stale(q, b, k);
    }
  }

  /** The flush of t has exchanged barrier b and not returned. */
  predicate HasBarrier(q: Queue, t: nat, b: nat) {
    && t < |q.producers|
    && var p := q.producers[t]; p == Waiting(b) || (p.Swapped? && p.flush && p.index == b)
  }

  lemma ExposedBack(q: Queue, s: Step, b: nat)
    requires Inv(q) && Tidy(q) && Enabled(q, s) && Safe(q, s) && b < |q.pushed| && Exposed(Next(q, s), b)
    ensures Exposed(q, b)
  {
    if s.Advance? { AdvanceBack(q, b); } else if s.Load? { LoadBack(q, b); } else { RestBack(q, s, b); }
  }

  /** No step opens a link in front of an index that was exchanged before. */
  lemma OpenBack(q: Queue, s: Step, lo: nat, b: nat)
    requires Enabled(q, s) && Safe(q, s) && b < |q.pushed|
    ensures OpenIn(Next(q, s).producers, lo, b) ==> OpenIn(q.producers, lo, b)
  {
    var n := Next(q, s);
    if OpenIn(n.producers, lo, b) {
      var u :| 0 <= u < |n.producers| && n.producers[u].Swapped? && lo <= n.producers[u].index < b;
      assert q.producers[u] == n.producers[u];
    }
  }

  lemma AdvanceBack(q: Queue, b: nat)
    requires Inv(q) && Enabled(q, Advance) && Safe(q, Advance) && Exposed(Next(q, Advance), b)
    ensures Exposed(q, b)
  {
    var n := Next(q, Advance);
    assert q.heap[q.chain[0]].next == Some(q.chain[1]);
    assert q.heap[q.chain[1]].item == q.pushed[|q.popped|];
    if !n.done {
      if k: nat :| Stale(n, b, k) { assert Stale(q, b, k); }
      else if !q.saw { assert Stale(q, b, |q.popped|); }
    }
  }

  // ------------------------------------------------------------------------ continuations

  ghost predicate Sound(q: Queue) { Inv(q) && Tidy(q) && (q.consumer.Asleep? ==> !q.saw) }

  lemma SoundNext(q: Queue, s: Step)
    requires Sound(q) && Enabled(q, s)
    ensures Safe(q, s) && Sound(Next(q, s))
  {
    InvNext(q, s);
    TidyNext(q, s);
  }

  lemma {:induction false} SoundRun(run: seq<Queue>, steps: seq<Step>, n: nat)
    requires IsRun(run, steps) && n < |run|
    ensures Sound(run[n])
    ensures n < |steps| ==> Safe(run[n], steps[n]) && run[n + 1] == Next(run[n], steps[n])
  {
    InvRun(run, steps, n);
    TidyRun(run, steps, n);
    if n > 0 { SoundRun(run, steps, n - 1); SoundNext(run[n - 1], steps[n - 1]); }
  }

  /** The steps lead from q to r. */
  ghost predicate Path(q: Queue, steps: seq<Step>, r: Queue)
    decreases |steps|
  {
    if steps == [] then r == q
    else Enabled(q, steps[0]) && Safe(q, steps[0]) && Path(Next(q, steps[0]), steps[1..], r)
  }

  lemma PathFirst(q: Queue, s: Step, steps: seq<Step>, r: Queue)
    requires Enabled(q, s) && Safe(q, s) && Path(Next(q, s), steps, r)
    ensures Path(q, [s] + steps, r)
  {
    assert ([s] + steps)[1..] == steps;
  }

  lemma PathOne(q: Queue, s: Step)
    requires Enabled(q, s) && Safe(q, s)
    ensures Path(q, [s], Next(q, s))
  {
    assert [s][1..] == [];
  }

  lemma EarlyIsExposed(q: Queue, t: nat, b: nat)
    requires Early(q, t, b)
    ensures Exposed(q, b)
  {
  }

  /** A flush that is let go early was exposed all along. */
  lemma {:induction false} ExposedPath(q: Queue, steps: seq<Step>, r: Queue, t: nat, b: nat)
    requires Sound(q) && Path(q, steps, r) && b < |q.pushed| && Early(r, t, b)
    ensures Exposed(q, b)
    decreases |steps|
  {
    if steps == [] { EarlyIsExposed(q, t, b); }
    else {
      PushedStays(q, steps[0]);
      SoundNext(q, steps[0]);
      ExposedPath(Next(q, steps[0]), steps[1..], r, t, b);
      ExposedBack(q, steps[0], b);
    }
  }

  lemma PushedStays(q: Queue, s: Step)
    requires Enabled(q, s) && Safe(q, s)
    ensures |q.pushed| <= |Next(q, s).pushed|
  {
  }

  /** Links and the consumer can bring a drain that met a barrier to its end in front of the
      unfinished push of w: one has been met already, or barrier k is yet to come. */
  ghost predicate Aims(q: Queue, k: nat, w: nat) {
    && Sound(q) && w < |q.producers| && q.producers[w].Swapped? && |q.popped| <= q.producers[w].index
    && (q.saw || (|q.popped| <= k < q.producers[w].index && k < |q.pushed| && q.pushed[k].barrier))
  }

  predicate Met(q: Queue) { q.saw && q.consumer.Drained? }

  function Phase(q: Queue): nat {
    match q.consumer {
      case Freeing(_) => 6
      case Drained => 5
      case Asleep => 4
      case Ready => if q.tail in q.heap && q.heap[q.tail].next.Some? then 2 else 3
      case Popping(_) => 1
    }
  }

  /** s keeps the aim and brings the end of the drain nearer. */
  ghost predicate Helps(q: Queue, s: Step, k: nat, w: nat) {
    Enabled(q, s) && Safe(q, s) && Sound(Next(q, s)) && Closer(q, s, Next(q, s), k, w)
  }

  predicate Closer(q: Queue, s: Step, n: Queue, k: nat, w: nat) {
    && w < |q.producers| && q.producers[w].Swapped?
    && var i := q.producers[w].index;
       && n.pushed == q.pushed && |q.popped| <= |n.popped| <= i
       && (|n.popped| > |q.popped| || Phase(n) < Phase(q))
       && (n.saw || (|n.popped| <= k < i && k < |n.pushed| && n.pushed[k].barrier))
       && |n.producers| == |q.producers|
       && (if s.Link? then
             && s.t < |q.producers| && q.producers[s.t].Swapped? && q.producers[s.t].index < i
             && n.producers == q.producers[s.t := n.producers[s.t]]
           else n.producers == q.producers)
  }

  /** The push right after the sentinel is unfinished: it links. */
  lemma LinkCloser(q: Queue, k: nat, w: nat, u: nat)
    requires w < |q.producers| && q.producers[w].Swapped? && u < |q.producers| && q.producers[u].Swapped?
    requires q.producers[u].index == |q.popped| < q.producers[w].index && Safe(q, Link(u))
    requires q.consumer.Ready? && !q.saw && q.tail in q.heap && q.heap[q.tail].next == None
             && q.producers[u].prev == q.tail
    requires |q.popped| <= k < q.producers[w].index && k < |q.pushed| && q.pushed[k].barrier
    ensures Closer(q, Link(u), Next(q, Link(u)), k, w)
  {
  }

  lemma HelpsLink(q: Queue, k: nat, w: nat) returns (s: Step)
    requires Aims(q, k, w) && q.consumer.Ready? && !q.saw && q.heap[q.tail].next == None
    ensures Helps(q, s, k, w)
  {
    assert ProducerOk(q.heap, q.chain, q.pushed, |q.popped|, q.producers[w]);
    var u := FrontOwner(q);
    assert ProducerOk(q.heap, q.chain, q.pushed, |q.popped|, q.producers[u]);
    s := Link(u);
    SoundNext(q, s);
    LinkCloser(q, k, w, u);
  }

  lemma PopCloser(q: Queue, k: nat, w: nat)
    requires q.consumer.Popping? && Safe(q, Advance) && w < |q.producers| && q.producers[w].Swapped?
    requires |q.popped| < q.producers[w].index && |q.popped| < |q.pushed|
    requires q.heap[q.consumer.next].item == q.pushed[|q.popped|]
    requires q.saw || (|q.popped| <= k < q.producers[w].index && k < |q.pushed| && q.pushed[k].barrier)
    ensures Closer(q, Advance, Next(q, Advance), k, w)
  {
  }

  lemma HelpsPop(q: Queue, k: nat, w: nat)
    requires Aims(q, k, w) && q.consumer.Popping?
    ensures Helps(q, Advance, k, w)
  {
    PopsNext(q, w);
    PopCloser(q, k, w);
    SoundNext(q, Advance);
  }

  lemma PopsNext(q: Queue, w: nat)
    requires Inv(q) && q.consumer.Popping? && w < |q.producers|
    ensures Safe(q, Advance) && |q.popped| < |q.pushed| && q.heap[q.consumer.next].item == q.pushed[|q.popped|]
    ensures q.producers[w].Swapped? ==> q.producers[w].index != |q.popped|
  {
    assert ProducerOk(q.heap, q.chain, q.pushed, |q.popped|, q.producers[w]);
    assert q.heap[q.chain[0]].next == Some(q.chain[1]);
    assert q.heap[q.chain[1]].item == q.pushed[|q.popped|];
  }

  lemma HelpsLoad(q: Queue, k: nat, w: nat)
    requires Aims(q, k, w) && q.consumer.Ready? && q.heap[q.tail].next.Some?
    ensures Helps(q, Load, k, w)
  {
    SoundNext(q, Load);
  }

  lemma HelpsRest(q: Queue, k: nat, w: nat, s: Step)
    requires Aims(q, k, w) && !Met(q)
    requires s == (match q.consumer case Asleep => Wake case Drained => Signal case _ => Free)
    requires q.consumer.Asleep? || q.consumer.Drained? || q.consumer.Freeing?
    ensures Helps(q, s, k, w)
  {
    SoundNext(q, s);
  }

  lemma Nearer(q: Queue, k: nat, w: nat) returns (s: Step)
    requires Aims(q, k, w) && !Met(q) && !(q.saw && q.consumer.Ready? && q.heap[q.tail].next == None)
    ensures Helps(q, s, k, w)
  {
    match q.consumer {
      case Popping(_) => HelpsPop(q, k, w); s := Advance;
      case Ready =>
        if q.heap[q.tail].next == None { s := HelpsLink(q, k, w); } else { HelpsLoad(q, k, w); s := Load; }
      case Asleep => s := Wake; HelpsRest(q, k, w, s);
      case Drained => s := Signal; HelpsRest(q, k, w, s);
      case Freeing(_) => s := Free; HelpsRest(q, k, w, s);
    }
  }

  lemma {:induction false} DrainsBefore(q: Queue, k: nat, w: nat, t: nat) returns (steps: seq<Step>, r: Queue)
    requires Aims(q, k, w) && t < |q.producers|
    requires q.producers[t].Swapped? ==> q.producers[w].index < q.producers[t].index
    ensures Path(q, steps, r) && Sound(r) && Met(r) && |r.producers| == |q.producers|
    ensures |r.popped| <= q.producers[w].index && r.producers[t] == q.producers[t]
    decreases q.producers[w].index - |q.popped|, Phase(q)
  {
    if Met(q) { steps, r := [], q; }
    else if q.saw && q.consumer.Ready? && q.heap[q.tail].next == None {
      SoundNext(q, Load);
      PathOne(q, Load);
      steps, r := [Load], Next(q, Load);
    } else {
      var s := Nearer(q, k, w);
      steps, r := DrainsBefore(Next(q, s), k, w, t);
      PathFirst(q, s, steps, r);
      steps := [s] + steps;
    }
  }

  /** The flush links its barrier and finds the flag up. */
  lemma Links(q: Queue, t: nat, b: nat) returns (steps: seq<Step>, r: Queue)
    requires Inv(q) && q.done && |q.popped| < b && HasBarrier(q, t, b)
    ensures Path(q, steps, r) && Early(r, t, b)
  {
    steps, r := [], q;
    if q.producers[t].Swapped? {
      InvSafe(q, Link(t));
      PathOne(q, Link(t));
      steps, r := [Link(t)], Next(q, Link(t));
    }
  }

  lemma Finishes(q: Queue, t: nat, b: nat) returns (steps: seq<Step>, r: Queue)
    requires Sound(q) && (q.done || Met(q)) && |q.popped| < b && HasBarrier(q, t, b)
    ensures Path(q, steps, r) && Early(r, t, b)
  {
    if q.done { steps, r := Links(q, t, b); }
    else {
      SoundNext(q, Signal);
      steps, r := Links(Next(q, Signal), t, b);
      PathFirst(q, Signal, steps, r);
      steps := [Signal] + steps;
    }
  }

  lemma {:induction false} PathCat(q: Queue, xs: seq<Step>, m: Queue, ys: seq<Step>, r: Queue)
    requires Path(q, xs, m) && Path(m, ys, r)
    ensures Path(q, xs + ys, r)
    decreases |xs|
  {
    if xs == [] { assert xs + ys == ys; }
    else {
      PathCat(Next(q, xs[0]), xs[1..], m, ys, r);
      assert xs + ys == [xs[0]] + (xs[1..] + ys);
      PathFirst(q, xs[0], xs[1..] + ys, r);
    }
  }

  lemma ExposedLeaves(q: Queue, t: nat, b: nat) returns (steps: seq<Step>, r: Queue)
    requires Sound(q) && Exposed(q, b) && HasBarrier(q, t, b)
    ensures Path(q, steps, r) && Early(r, t, b)
  {
    steps, r := [], q;
    if !q.done && !Met(q) {
      var k: nat, w: nat := 0, 0;
      if q.saw && OpenIn(q.producers, |q.popped|, b) {
        w :| 0 <= w < |q.producers| && q.producers[w].Swapped? && |q.popped| <= q.producers[w].index < b;
      } else {
        k :| Stale(q, b, k);
        w :| 0 <= w < |q.producers| && q.producers[w].Swapped? && k + 1 <= q.producers[w].index < b;
      }
      steps, r := DrainsBefore(q, k, w, t);
    }
    var more, last := Finishes(r, t, b);
    PathCat(q, steps, r, more, last);
    steps, r := steps + more, last;
  }

  // ------------------------------------------------------------------------------ theorems

  ghost predicate LetGoEarly(q: Queue, t: nat, b: nat) { exists steps, r :: Path(q, steps, r) && Early(r, t, b) }

  lemma ExposedExactly(q: Queue, t: nat, b: nat)
    requires Sound(q) && HasBarrier(q, t, b) && b < |q.pushed|
    ensures LetGoEarly(q, t, b) <==> Exposed(q, b)
  {
    if LetGoEarly(q, t, b) {
      var steps, r :| Path(q, steps, r) && Early(r, t, b);
      ExposedPath(q, steps, r, t, b);
    } else if Exposed(q, b) {
      var steps, r := ExposedLeaves(q, t, b);
      assert LetGoEarly(q, t, b);
    }
  }

  /** From the exchange of its barrier on, a flush can return before everything pushed ahead of
      the barrier was handed out exactly if it is exposed at that moment. */
  lemma FlushExactly(run: seq<Queue>, steps: seq<Step>, j: nat, t: nat)
    requires IsRun(run, steps) && j < |steps| && steps[j] == Swap(t) && Flushes(run[j], t)
    ensures LetGoEarly(run[j + 1], t, |run[j].pushed|) <==> Exposed(run[j + 1], |run[j].pushed|)
  {
    SoundRun(run, steps, j);
    SoundRun(run, steps, j + 1);
    ExposedExactly(run[j + 1], t, |run[j].pushed|);
  }

  /** The barrier at k, if any, is the only one not yet popped. */
  ghost predicate OnlyBarrier(pushed: seq<Item>, popped: seq<Item>, k: int) {
    forall j :: |popped| <= j < |pushed| && j != k ==> !pushed[j].barrier
  }

  /** No barrier before b is queued, and what raised the flag was barrier b or a later one. */
  ghost predicate Calm(q: Queue, b: nat) {
    && (forall k :: |q.popped| <= k < b && k < |q.pushed| ==> !q.pushed[k].barrier)
    && (q.done || q.saw ==> b < |q.popped|)
  }

  lemma CalmNext(q: Queue, s: Step, b: nat)
    requires Inv(q) && Enabled(q, s) && Safe(q, s) && Calm(q, b)
    requires b < |q.pushed| || (s.Swap? ==> !q.producers[s.t].flush)
    ensures Calm(Next(q, s), b)
  {
    if s.Advance? {
      assert q.heap[q.chain[0]].next == Some(q.chain[1]);
      assert q.heap[q.chain[1]].item == q.pushed[|q.popped|];
    }
    if s.Swap? { assert ProducerOk(q.heap, q.chain, q.pushed, |q.popped|, q.producers[s.t]); }
  }

  lemma {:induction false} CalmRun(run: seq<Queue>, steps: seq<Step>, i: nat, n: nat, b: nat)
    requires IsRun(run, steps) && i <= n < |run| && Calm(run[i], b)
    requires b < |run[i].pushed| || forall k :: i <= k < n && steps[k].Swap? ==> !Flushes(run[k], steps[k].t)
    ensures Calm(run[n], b)
    decreases n
  {
    if i < n {
      CalmRun(run, steps, i, n - 1, b);
      InvRun(run, steps, n - 1);
      PushedGrows(run, steps, i, n - 1);
      CalmNext(run[n - 1], steps[n - 1], b);
    }
  }

  predicate Flushes(q: Queue, t: nat) { t < |q.producers| && q.producers[t].Made? && q.producers[t].flush }

  lemma {:induction false} PushedGrows(run: seq<Queue>, steps: seq<Step>, i: nat, n: nat)
    requires IsRun(run, steps) && i <= n < |run|
    ensures run[i].pushed <= run[n].pushed
    decreases n
  {
    if i < n {
      PushedGrows(run, steps, i, n - 1);
      InvRun(run, steps, n - 1);
    }
  }

  /** The barrier a waiting flusher pushed is the one its own exchange put in the queue. */
  lemma {:induction false} OwnBarrier(run: seq<Queue>, steps: seq<Step>, j: nat, n: nat, t: nat)
    requires IsRun(run, steps) && j < n < |run| && steps[j] == Swap(t)
    requires forall i :: j < i < n ==> steps[i] != Swap(t)
    ensures t < |run[n].producers|
    ensures run[n].producers[t].Swapped? || run[n].producers[t].Waiting?
            ==> run[n].producers[t].index == |run[j].pushed|
  {
    InvRun(run, steps, n - 1);
    if j < n - 1 { OwnBarrier(run, steps, j, n - 1, t); }
  }

  /** A flush that resets the flag while no barrier is queued and the present drain has met none,
      and into which no other barrier is exchanged before its own, returns only after its own
      barrier and everything before it was handed out; what others do afterwards is harmless. */
  lemma FlushDelivers(run: seq<Queue>, steps: seq<Step>, c: nat, j: nat, n: nat, t: nat)
    requires IsRun(run, steps) && c < j < n < |steps|
    requires steps[c] == Clear(t) && steps[j] == Swap(t) && steps[n] == Leave(t)
    requires forall i :: j < i < n ==> steps[i] != Swap(t)
    requires !run[c].saw && OnlyBarrier(run[c].pushed, run[c].popped, -1)
    requires forall i :: c < i < j && steps[i].Swap? ==> !Flushes(run[i], steps[i].t)
    ensures run[j].pushed < run[n].popped
  {
    var b := |run[j].pushed|;
    InvRun(run, steps, c);
    PushedGrows(run, steps, c + 1, j);
    CalmRun(run, steps, c + 1, j, b);
    InvRun(run, steps, j);
    assert Calm(run[j + 1], b);
    CalmRun(run, steps, j + 1, n, b);
    OwnBarrier(run, steps, j, n, t);
    PushedGrows(run, steps, j, n);
    InvRun(run, steps, n);
  }

  // ------------------------------------------------------------- flushes that never overlap

  predicate InFlush(p: Producer) {
    p.Cleared? || p.Waiting? || (p.Made? && p.flush) || (p.Swapped? && p.flush)
  }

  ghost predicate Solo(ps: seq<Producer>) {
    forall t, u :: 0 <= t < u < |ps| ==> !(InFlush(ps[t]) && InFlush(ps[u]))
  }

  /** What a flusher relies on, by where it stands. */
  ghost predicate FlushOk(q: Queue, p: Producer) {
    match p {
      case Swapped(_, _, k, true) => OnlyBarrier(q.pushed, q.popped, k) && (q.done || q.saw ==> k < |q.popped|)
          && !(q.done && q.saw)
      case Waiting(k) => OnlyBarrier(q.pushed, q.popped, k) && (q.done || q.saw ==> k < |q.popped|)
          && !(q.done && q.saw)
      case _ => InFlush(p) ==> OnlyBarrier(q.pushed, q.popped, -1) && !q.saw && !q.done
    }
  }

  ghost predicate Nobody(ps: seq<Producer>) { forall t :: 0 <= t < |ps| ==> !InFlush(ps[t]) }

  ghost predicate FlushInv(q: Queue) {
    && (forall t :: 0 <= t < |q.producers| ==> FlushOk(q, q.producers[t]))
    && (Nobody(q.producers) ==> OnlyBarrier(q.pushed, q.popped, -1) && !q.saw)
  }

  lemma FlushClear(q: Queue, t: nat)
    requires FlushInv(q) && Enabled(q, Clear(t)) && Solo(q.producers[t := Cleared])
    ensures FlushInv(Next(q, Clear(t)))
  {
    var ps := q.producers[t := Cleared];
    forall u | 0 <= u < |ps| && u != t ensures ps[u] == q.producers[u] && !InFlush(ps[u]) { assert InFlush(ps[t]); }
    assert Nobody(q.producers);
    assert !Nobody(ps) by { assert InFlush(ps[t]); }
  }

  lemma FlushOther(q: Queue, n: Queue, t: nat)
    requires FlushInv(q) && t < |q.producers| == |n.producers| && FlushOk(n, n.producers[t])
    requires InFlush(q.producers[t]) == InFlush(n.producers[t]) && n.done == q.done && n.saw == q.saw
    requires forall u :: 0 <= u < |q.producers| && u != t ==> n.producers[u] == q.producers[u]
    requires n.popped == q.popped && q.pushed <= n.pushed
    requires n.pushed == q.pushed || InFlush(q.producers[t])
             || (|n.pushed| == |q.pushed| + 1 && !n.pushed[|q.pushed|].barrier)
    requires n.pushed == q.pushed || Solo(q.producers)
    ensures FlushInv(n)
  {
    forall u | 0 <= u < |n.producers| ensures FlushOk(n, n.producers[u]) {
      assert FlushOk(q, q.producers[u]);
    }
    if Nobody(n.producers) {
      forall u | 0 <= u < |q.producers| ensures !InFlush(q.producers[u]) { assert !InFlush(n.producers[u]); }
      assert Nobody(q.producers);
    }
  }

  lemma FlushSwap(q: Queue, t: nat)
    requires Inv(q) && FlushInv(q) && Enabled(q, Swap(t)) && Safe(q, Swap(t)) && Solo(q.producers)
    ensures FlushInv(Next(q, Swap(t)))
  {
    assert ProducerOk(q.heap, q.chain, q.pushed, |q.popped|, q.producers[t]);
    assert FlushOk(q, q.producers[t]);
    FlushOther(q, Next(q, Swap(t)), t);
  }

  lemma FlushLeave(q: Queue, t: nat)
    requires FlushInv(q) && Enabled(q, Leave(t)) && Solo(q.producers)
    ensures FlushInv(Next(q, Leave(t)))
  {
    var n := Next(q, Leave(t));
    assert FlushOk(q, q.producers[t]);
    forall u | 0 <= u < |n.producers| ensures FlushOk(n, n.producers[u]) && !InFlush(n.producers[u]) {
      if u != t { assert FlushOk(q, q.producers[u]); assert InFlush(q.producers[t]); }
    }
  }

  lemma FlushAdvance(q: Queue)
    requires Inv(q) && FlushInv(q) && Enabled(q, Advance) && Safe(q, Advance)
    ensures FlushInv(Next(q, Advance))
  {
    var n := Next(q, Advance);
    assert q.heap[q.chain[0]].next == Some(q.chain[1]);
    assert q.heap[q.chain[1]].item == q.pushed[|q.popped|];
    forall u | 0 <= u < |n.producers| ensures FlushOk(n, n.producers[u]) {
      assert FlushOk(q, q.producers[u]);
    }
  }

  lemma FlushSignal(q: Queue)
    requires FlushInv(q) && Enabled(q, Signal)
    ensures FlushInv(Next(q, Signal))
  {
    var n := Next(q, Signal);
    forall u | 0 <= u < |n.producers| ensures FlushOk(n, n.producers[u]) {
      assert FlushOk(q, q.producers[u]);
    }
  }

  lemma FlushNext(q: Queue, s: Step)
    requires Inv(q) && FlushInv(q) && Enabled(q, s) && Safe(q, s) && Solo(q.producers) && Solo(Next(q, s).producers)
    ensures FlushInv(Next(q, s))
  {
    match s {
      case Clear(t) => FlushClear(q, t);
      case Make(t, _, _) => assert FlushOk(q, q.producers[t]); FlushOther(q, Next(q, s), t);
      case Swap(t) => FlushSwap(q, t);
      case Link(t) => assert FlushOk(q, q.producers[t]); FlushOther(q, Next(q, s), t);
      case Leave(t) => FlushLeave(q, t);
      case Advance => FlushAdvance(q);
      case Signal => FlushSignal(q);
      case _ =>
        var n := Next(q, s);
        forall u | 0 <= u < |n.producers| ensures FlushOk(n, n.producers[u]) { assert FlushOk(q, q.producers[u]); }
    }
  }

  lemma {:induction false} FlushRun(run: seq<Queue>, steps: seq<Step>, n: nat)
    requires IsRun(run, steps) && n < |run| && forall i :: 0 <= i <= n ==> Solo(run[i].producers)
    ensures FlushInv(run[n])
  {
    if n > 0 {
      InvRun(run, steps, n - 1);
      FlushRun(run, steps, n - 1);
      FlushNext(run[n - 1], steps[n - 1]);
    }
  }

  /** If no two flushes ever overlap, every flush delivers. */
  lemma FlushesApart(run: seq<Queue>, steps: seq<Step>, j: nat, n: nat, t: nat)
    requires IsRun(run, steps) && j < n < |steps| && steps[j] == Swap(t) && steps[n] == Leave(t)
    requires forall i :: j < i < n ==> steps[i] != Swap(t)
    requires forall i :: 0 <= i <= n ==> Solo(run[i].producers)
    ensures run[j].pushed < run[n].popped
  {
    InvRun(run, steps, n);
    FlushRun(run, steps, n);
    OwnBarrier(run, steps, j, n, t);
    PushedGrows(run, steps, j, n);
    assert FlushOk(run[n], run[n].producers[t]);
  }
}
