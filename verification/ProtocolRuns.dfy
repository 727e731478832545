/**
 The whole invariant, and what only ever grows along a run.
 */
module ProtocolRuns {
  import opened Protocol
  import opened ProtocolShape
  import opened ProtocolClaims
  import opened ProtocolQueues
  import opened ProtocolMessages

  ghost predicate Inv(s: State) { Shape(s) && Claims(s) && Queues(s) && Messages(s) }

  lemma InvInit(s: State)
    requires Init(s)
    ensures Inv(s)
  {
    ShapeInit(s);
    ClaimsInit(s);
    QueuesInit(s);
    MessagesInit(s);
  }

  lemma InvNext(s: State, a: Action)
    requires Inv(s) && Enabled(s, a)
    ensures Inv(Next(s, a))
  {
    ShapeNext(s, a);
    ClaimsNext(s, a);
    QueuesNext(s, a);
    MessagesNext(s, a);
  }

  /** The invariant holds throughout every run. */
  lemma {:induction false} InvRun(run: seq<State>, actions: seq<Action>, n: nat)
    requires IsRun(run, actions) && n < |run|
    ensures Inv(run[n])
  {
    if n == 0 { InvInit(run[0]); }
    else {
      InvRun(run, actions, n - 1);
      assert Enabled(run[n - 1], actions[n - 1]);
      InvNext(run[n - 1], actions[n - 1]);
    }
  }

  // ------------------------------------------------------------ one-way changes

  /** Progress of a wake-up: each entry goes through its stages once. */
  function Rank(g: Stage): nat {
    match g { case Waiting => 0 case Firing(_) => 1 case Owed(_) => 2 case Posted => 3 case Settled => 4 }
  }

  predicate EntryAdvances(y: Entry, z: Entry) {
    && SameEntry(y, z) && Rank(y.stage) <= Rank(z.stage) && (y.woken ==> z.woken) && (y.cancelled ==> z.cancelled)
    && (y.woken ==> z.ok == y.ok && z.slot == y.slot)
  }

  function CloserRank(g: Closer): nat { match g { case Nobody => 0 case Busy(_) => 1 case Finished => 2 } }

  /** A closed channel only gives out what is in its buffer, oldest first. */
  predicate ChanAdvances(x: Chan, y: Chan) {
    && y.cap == x.cap && (x.closed ==> y.closed) && x.deq <= y.deq && x.ran <= y.ran
    && CloserRank(x.closer) <= CloserRank(y.closer) && (x.closer.Busy? && y.closer.Busy? ==> x.closer == y.closer)
    && (x.closed ==> y.deq + y.buf == x.deq + x.buf)
    && (x.closed && x.takers == [] && x.putters == [] ==> y.takers == [] && y.putters == [])
    && x.taken <= y.taken && x.taken + |x.buf| <= y.taken + |y.buf|
  }

  /** An entry is woken with GOC_OK only while its channel is open. */
  predicate WakesOpen(chans: seq<Chan>, y: Entry, z: Entry) {
    !y.woken && z.woken && z.ok ==> y.ch < |chans| && !chans[y.ch].closed
  }

  ghost predicate Advances(s: State, r: State) {
    && s.done <= r.done && |s.msgs| <= |r.msgs|
    && |s.entries| <= |r.entries|
    && (forall e :: 0 <= e < |s.entries| ==>
          EntryAdvances(s.entries[e], r.entries[e]) && WakesOpen(s.chans, s.entries[e], r.entries[e]))
    && |s.fired| <= |r.fired| && (forall f :: 0 <= f < |s.fired| && s.fired[f].Some? ==> r.fired[f] == s.fired[f])
    && |s.chans| == |r.chans| && (forall c :: 0 <= c < |s.chans| ==> ChanAdvances(s.chans[c], r.chans[c]))
  }

  /** A step that writes at most one channel and one entry. */
  lemma AdvBy(s: State, r: State, c: nat, e: nat)
    requires |r.chans| == |s.chans| && |r.entries| == |s.entries|
    requires c < |s.chans| ==> ChanAdvances(s.chans[c], r.chans[c])
    requires r.chans == if c < |s.chans| then s.chans[c := r.chans[c]] else s.chans
    requires e < |s.entries| ==>
               EntryAdvances(s.entries[e], r.entries[e]) && WakesOpen(s.chans, s.entries[e], r.entries[e])
    requires r.entries == if e < |s.entries| then s.entries[e := r.entries[e]] else s.entries
    requires r.fired == s.fired && s.done <= r.done && |s.msgs| <= |r.msgs|
    ensures Advances(s, r)
  { }

  lemma AdvSame(s: State, r: State)
    requires r.chans == s.chans && r.entries == s.entries && r.fired == s.fired && s.done <= r.done
             && |s.msgs| <= |r.msgs|
    ensures Advances(s, r)
  { AdvBy(s, r, |s.chans|, |s.entries|); }

  lemma AdvChan(s: State, r: State, c: nat)
    requires c < |s.chans| && |r.chans| == |s.chans| && r.chans == s.chans[c := r.chans[c]]
    requires ChanAdvances(s.chans[c], r.chans[c]) && r.entries == s.entries && r.fired == s.fired && r.done == s.done
             && |r.msgs| == |s.msgs|
    ensures Advances(s, r)
  { AdvBy(s, r, c, |s.entries|); }

  lemma AdvEntry(s: State, r: State, e: nat)
    requires e < |s.entries| && |r.entries| == |s.entries| && r.entries == s.entries[e := r.entries[e]]
    requires EntryAdvances(s.entries[e], r.entries[e]) && r.entries[e].woken == s.entries[e].woken
    requires r.chans == s.chans && r.fired == s.fired && r.done == s.done && |r.msgs| == |s.msgs|
    ensures Advances(s, r)
  { AdvBy(s, r, |s.chans|, e); }

  /** Setting a flag that was clear. */
  lemma AdvFired(s: State, r: State, t: nat, e: nat)
    requires EntryOk(s, e) && s.entries[e].stage.Waiting? && !FiredOver(s, e)
    requires r.entries == MarkFired(s, t, e).entries && r.fired == MarkFired(s, t, e).fired && r.chans == s.chans
             && r.done == s.done
    requires |r.msgs| == |s.msgs|
    ensures Advances(s, r)
  { }

  /** The waiter lists of a closed channel are empty to everyone but the close itself. */
  lemma ClosedEmpty(s: State, t: nat, c: nat)
    requires Inv(s) && t < |s.tasks| && c < |s.chans| && c in s.tasks[t].held && s.chans[c].closed
             && !CloseLocked(s.tasks[t].pc)
    ensures s.chans[c].takers == [] && s.chans[c].putters == []
  {
    assert ChanQueue(s, c) && TaskLocks(s, t);
    if s.chans[c].closer.Busy? {
      var w := s.chans[c].closer.task;
      assert TaskShape(s, w);
      if CloseLocked(s.tasks[w].pc) { Exclusive(s, t, w, c); }
    }
  }

  lemma AdvPutBuffer(s: State, t: nat, k: nat, c: nat)
    requires t < |s.tasks| && c < |s.chans| && s.tasks[t].call.base + k < |s.msgs| && !s.chans[c].closed
    ensures Advances(s, PutBuffer(s, t, k, c))
  { AdvChan(s, PutBuffer(s, t, k, c), c); }

  lemma AdvAttempt(s: State, t: nat)
    requires Inv(s) && AttemptOk(s, t) && s.tasks[t].pc.Attempt?
    ensures Advances(s, StepAttempt(s, t))
  {
    var x := s.tasks[t]; var k := x.pc.k; var r := StepAttempt(s, t);
    if k == |x.call.arms| {
      if !x.call.how.Try? { AdvPark(s, t); } else { AdvSame(s, r); }
    } else {
      var a := x.call.arms[k]; var c := s.chans[a.ch];
      if !a.put && c.buf != [] {
        assert c.deq + [c.buf[0]] + c.buf[1..] == c.deq + c.buf;
        AdvChan(s, r, a.ch);
      }
      else if a.put && !c.closed && x.pc.two && |c.buf| < c.cap { AdvPutBuffer(s, t, k, a.ch); }
      else { AdvSame(s, r); }
    }
  }

  lemma AdvPark(s: State, t: nat)
    requires Inv(s) && t < |s.tasks| && AtPark(s.tasks[t])
    ensures Advances(s, Park(s, t))
  {
    var arms := s.tasks[t].call.arms;
    AllWait(s, t);
    forall c | 0 <= c < |s.chans| ensures ChanAdvances(s.chans[c], Park(s, t).chans[c]) {
      if s.chans[c].closed {
        forall j | 0 <= j < |arms| ensures arms[j].ch != c { assert ArmWaits(s.chans, arms[j]); }
        JoinedElsewhere(s.chans[c], arms, c, |s.entries|);
      }
    }
  }

  lemma AdvDrop(s: State, t: nat)
    requires WalkOk(s, t)
    requires var a := s.tasks[t].call.arms[s.tasks[t].pc.k]; Others(s.chans[a.ch], a.put) != []
    ensures Advances(s, DropHead(s, t))
  { AdvChan(s, DropHead(s, t), s.tasks[t].call.arms[s.tasks[t].pc.k].ch); }

  lemma AdvUnlock(s: State, t: nat, pc: PC)
    requires t < |s.tasks| && s.tasks[t].held != [] && s.tasks[t].held[|s.tasks[t].held| - 1] < |s.chans|
    ensures Advances(s, Unlock(s, t, pc))
  { AdvChan(s, Unlock(s, t, pc), s.tasks[t].held[|s.tasks[t].held| - 1]); }

  lemma AdvWalk(s: State, t: nat)
    requires Inv(s) && WalkOk(s, t) && s.tasks[t].pc.Walk?
    ensures Advances(s, StepWalk(s, t))
  {
    var x := s.tasks[t]; var k := x.pc.k; var a := x.call.arms[k]; var c := s.chans[a.ch];
    var list := Others(c, a.put); var r := StepWalk(s, t);
    assert TaskQueue(s, t);
    if list == [] {
      if !a.put && c.closed { AdvSame(s, r); }
      else if a.put && !x.pc.two && |c.buf| < c.cap { AdvPutBuffer(s, t, k, a.ch); }
      else if x.pc.two { AdvUnlock(s, t, Scan(k + 1)); }
      else { AdvSame(s, r); }
    } else if s.entries[list[0]].cancelled { AdvDrop(s, t); }
    else { AdvSame(s, r); }
  }

  lemma AdvClaim(s: State, t: nat)
    requires Inv(s) && CanStep(s, t) && (s.tasks[t].pc.Look? || s.tasks[t].pc.Fire?)
    ensures Advances(s, Step(s, t))
  {
    var x := s.tasks[t]; var a := x.call.arms[x.pc.k]; var e := Others(s.chans[a.ch], a.put)[0]; var r := Step(s, t);
    if r.tasks[t].pc.Walk? { AdvDrop(s, t); }
    else if r.tasks[t].pc.Fire? { AdvSame(s, r); }
    else {
      ArmLocked(s, t);
      HeadBlank(s, t, a.ch, e);
      AdvFired(s, r, t, e);
    }
  }

  lemma AdvWake(s: State, t: nat)
    requires Inv(s) && WalkOk(s, t) && s.tasks[t].pc.Wake?
    ensures Advances(s, StepWake(s, t))
  {
    var x := s.tasks[t]; var a := x.call.arms[x.pc.k]; var e := Others(s.chans[a.ch], a.put)[0];
    var r := StepWake(s, t);
    WakeFacts(s, t);
    ArmLocked(s, t);
    if s.chans[a.ch].closed { ClosedEmpty(s, t, a.ch); }
    AdvBy(s, r, a.ch, e);
  }

  lemma AdvPosted(s: State, t: nat, x: Task, e: nat)
    requires t < |s.tasks| && EntryOk(s, e) && s.entries[e].stage.Owed?
    ensures Advances(s, Post(SetTask(s, t, x), e))
  { AdvEntry(s, Post(SetTask(s, t, x), e), e); }

  lemma AdvDeliver(s: State, t: nat)
    requires Inv(s) && DeliverOk(s, t) && (s.tasks[t].pc.Deliver? || s.tasks[t].pc.PostOut?)
    ensures Advances(s, StepDeliver(s, t))
  {
    var x := s.tasks[t]; var e := x.owed[0];
    OwedFacts(s, t, 0);
    if s.tasks[s.entries[e].owner].kind.Fiber? { NeverStale(s, t, e); }
    AdvPosted(s, t, x.(owed := [], pc := if x.pc.Deliver? then Release(x.pc.res) else Return(x.pc.res)), e);
  }

  lemma AdvFinish(s: State, t: nat, x: Task, e: nat)
    requires t < |s.tasks| && FinishOk(s, x.first, e) && s.entries[e].stage.Posted?
    ensures Advances(s, Finish(s, t, x, e))
  { AdvEntry(s, Finish(s, t, x, e), e); }

  lemma AdvSettle(s: State, t: nat)
    requires Inv(s) && SettleOk(s, t)
    ensures Advances(s, StepSettle(s, t))
  {
    var x := s.tasks[t]; var r := StepSettle(s, t);
    assert TaskClaim(s, t);
    if x.pc.j < |x.call.arms| {
      if s.entries[x.first + x.pc.j].woken { AdvSame(s, r); } else { AdvEntry(s, r, x.first + x.pc.j); }
    } else { AdvFinish(s, t, x, x.first + x.pc.winner.value); }
  }

  lemma AdvResume(s: State, t: nat)
    requires Inv(s) && CanStep(s, t) && (s.tasks[t].pc.Resumed? || s.tasks[t].pc.Wait? || s.tasks[t].pc.Settle?)
    ensures Advances(s, Step(s, t))
  {
    var x := s.tasks[t]; var r := Step(s, t);
    assert TaskClaim(s, t);
    if x.pc.Settle? { AdvSettle(s, t); }
    else if x.call.how.Select? { AdvSame(s, r); }
    else { AdvFinish(s, t, if x.pc.Resumed? then x.(parked := 0) else x.(sem := x.sem - 1), x.first); }
  }

  lemma AdvClosing(s: State, t: nat)
    requires Inv(s) && CanStep(s, t)
    requires var pc := s.tasks[t].pc; pc.CloseCas? || pc.CloseCas2? || pc.CloseLock?
    ensures Advances(s, Step(s, t))
  {
    var c := s.tasks[t].pc.c; var r := Step(s, t);
    assert ChanQueue(s, c);
    if r.chans == s.chans { AdvSame(s, r); } else { AdvChan(s, r, c); }
  }

  lemma AdvCloseRun(s: State, t: nat)
    requires Inv(s) && CanStep(s, t) && s.tasks[t].pc.CloseRun?
    ensures Advances(s, StepCloseRun(s, t))
  {
    assert ChanQueue(s, s.tasks[t].pc.c) && TaskQueue(s, t);
    AdvChan(s, StepCloseRun(s, t), s.tasks[t].pc.c);
  }

  lemma AdvCloseWalk(s: State, t: nat)
    requires Inv(s) && CloseWalkOk(s, t) && s.tasks[t].pc.CloseWalk?
    ensures Advances(s, StepCloseWalk(s, t))
  {
    var c := s.tasks[t].pc.c; var r := StepCloseWalk(s, t);
    if CloseTarget(s.chans[c]).None? { AdvUnlock(s, t, ClosePost(c)); }
    else if r.tasks[t].pc.CloseWalk? { AdvChan(s, r, c); }
    else { AdvSame(s, r); }
  }

  lemma AdvCloseFire(s: State, t: nat)
    requires Inv(s) && CloseWalkOk(s, t) && s.tasks[t].pc.CloseFire?
    ensures Advances(s, StepCloseFire(s, t))
  {
    var c := s.tasks[t].pc.c; var e := CloseTarget(s.chans[c]).value; var r := StepCloseFire(s, t);
    assert TaskShape(s, t);
    if r.tasks[t].pc.CloseWake? {
      HeadBlank(s, t, c, e);
      AdvFired(s, r, t, e);
    } else {
      AdvChan(s, r, c);
    }
  }

  lemma AdvCloseWake(s: State, t: nat)
    requires Inv(s) && CloseWalkOk(s, t) && s.tasks[t].pc.CloseWake?
    ensures Advances(s, StepCloseWake(s, t))
  {
    var c := s.tasks[t].pc.c; var e := CloseTarget(s.chans[c]).value; var r := StepCloseWake(s, t);
    assert TaskShape(s, t) && TaskClaim(s, t) && EntryClaim(s, e);
    AdvBy(s, r, c, e);
  }

  lemma AdvClosePost(s: State, t: nat)
    requires Inv(s) && CanStep(s, t) && (s.tasks[t].pc.CloseSignal? || s.tasks[t].pc.ClosePost?)
    ensures Advances(s, Step(s, t))
  {
    var x := s.tasks[t]; var n := |x.owed| - 1; var r := Step(s, t);
    if x.pc.CloseSignal? {
      OwedFacts(s, t, n);
      AdvPosted(s, t, x.(owed := x.owed[..n], pc := CloseWalk(x.pc.c)), x.owed[n]);
    } else if x.owed == [] { AdvSame(s, r); }
    else {
      OwedFacts(s, t, 0);
      if Ready(s, x.owed[0]) { AdvPosted(s, t, x.(owed := x.owed[1..]), x.owed[0]); } else { AdvSame(s, r); }
    }
  }

  lemma AdvLocks(s: State, t: nat)
    requires Inv(s) && CanStep(s, t)
    requires var pc := s.tasks[t].pc;
             pc.Scan? || pc.Acquire? || pc.Release? || pc.ParkRelease? || pc.Return? || pc.Yield? || pc.Switched?
    ensures Advances(s, Step(s, t))
  {
    var x := s.tasks[t]; var r := Step(s, t);
    if x.pc.Scan? && x.pc.k < |x.call.arms| { AdvChan(s, r, x.call.arms[x.pc.k].ch); }
    else if x.pc.Acquire? && |x.held| < |x.call.order| { AdvChan(s, r, x.call.order[|x.held|]); }
    else if (x.pc.Release? || x.pc.ParkRelease?) && x.held != [] { AdvUnlock(s, t, x.pc); }
    else { AdvSame(s, r); }
  }

  lemma AdvCloseStep(s: State, t: nat)
    requires Inv(s) && CanStep(s, t) && Closes(s.tasks[t].pc)
    ensures Advances(s, Step(s, t))
  {
    match s.tasks[t].pc {
      case CloseCas(_) => AdvClosing(s, t);
      case CloseCas2(_) => AdvClosing(s, t);
      case CloseLock(_) => AdvClosing(s, t);
      case CloseWalk(_) => AdvCloseWalk(s, t);
      case CloseRun(_) => AdvCloseRun(s, t);
      case CloseFire(_) => AdvCloseFire(s, t);
      case CloseWake(_, _) => AdvCloseWake(s, t);
      case CloseSignal(_) => AdvClosePost(s, t);
      case ClosePost(_) => AdvClosePost(s, t);
      case _ =>
    }
  }

  lemma AdvWalkStep(s: State, t: nat)
    requires Inv(s) && CanStep(s, t) && Walks(s.tasks[t].pc)
    ensures Advances(s, Step(s, t))
  {
    match s.tasks[t].pc {
      case Scan(_) => AdvLocks(s, t);
      case Acquire => AdvLocks(s, t);
      case Attempt(_, _) => AdvAttempt(s, t);
      case Walk(_, _) => AdvWalk(s, t);
      case Look(_, _) => AdvClaim(s, t);
      case Fire(_, _) => AdvClaim(s, t);
      case Wake(_, _, _) => AdvWake(s, t);
      case _ =>
    }
  }

  lemma AdvRestStep(s: State, t: nat)
    requires Inv(s) && CanStep(s, t) && !Walks(s.tasks[t].pc) && !Closes(s.tasks[t].pc)
    ensures Advances(s, Step(s, t))
  {
    var pc := s.tasks[t].pc;
    if pc.Deliver? || pc.PostOut? { AdvDeliver(s, t); }
    else if pc.Resumed? || pc.Wait? || pc.Settle? { AdvResume(s, t); }
    else { AdvLocks(s, t); }
  }

  lemma AdvStep(s: State, t: nat)
    requires Inv(s) && CanStep(s, t)
    ensures Advances(s, Step(s, t))
  {
    if Walks(s.tasks[t].pc) { AdvWalkStep(s, t); }
    else if Closes(s.tasks[t].pc) { AdvCloseStep(s, t); }
    else { AdvRestStep(s, t); }
  }

  lemma AdvNext(s: State, a: Action)
    requires Inv(s) && Enabled(s, a)
    ensures Advances(s, Next(s, a))
  {
    var r := Next(s, a);
    match a {
      case Advance(t) => AdvStep(s, t);
      case CloseCall(t, c, _) => if s.chans[c].guard.Open? { AdvChan(s, r, c); } else { AdvSame(s, r); }
      case Install(c) => AdvChan(s, r, c);
      case Sweep(_, c) => AdvChan(s, r, c);
      case _ => AdvSame(s, r);
    }
  }

  lemma AdvTrans(a: State, b: State, c: State)
    requires Advances(a, b) && Advances(b, c)
    ensures Advances(a, c)
  {
    forall e | 0 <= e < |a.entries|
      ensures EntryAdvances(a.entries[e], c.entries[e]) && WakesOpen(a.chans, a.entries[e], c.entries[e])
    {
      assert EntryAdvances(a.entries[e], b.entries[e]) && EntryAdvances(b.entries[e], c.entries[e]);
      assert WakesOpen(a.chans, a.entries[e], b.entries[e]) && WakesOpen(b.chans, b.entries[e], c.entries[e]);
      if a.entries[e].ch < |a.chans| { assert ChanAdvances(a.chans[a.entries[e].ch], b.chans[a.entries[e].ch]); }
    }
    forall d | 0 <= d < |a.chans| ensures ChanAdvances(a.chans[d], c.chans[d]) {
      assert ChanAdvances(a.chans[d], b.chans[d]) && ChanAdvances(b.chans[d], c.chans[d]);
    }
  }

  /** Nothing that happened in a run is taken back later in it. */
  lemma {:induction false} AdvRun(run: seq<State>, actions: seq<Action>, i: nat, j: nat)
    requires IsRun(run, actions) && i <= j < |run|
    ensures Advances(run[i], run[j])
    decreases j
  {
    if i == j { AdvSame(run[i], run[j]); }
    else {
      AdvRun(run, actions, i, j - 1);
      InvRun(run, actions, j - 1);
      assert Enabled(run[j - 1], actions[j - 1]);
      AdvNext(run[j - 1], actions[j - 1]);
      AdvTrans(run[i], run[j - 1], run[j]);
    }
  }
}
