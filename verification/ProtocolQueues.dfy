/**
 Third layer of the protocol's invariant: a waiter that can still be claimed stays queued,
 a parked arm is one that was found not ready under the lock, and a channel is closed once.
 */
module ProtocolQueues {
  import opened Common
  import opened Protocol
  import opened ProtocolShape
  import opened ProtocolClaims

  // ------------------------------------------------------------------- waiters

  /** Nobody has claimed y and its select's flag is clear. */
  predicate Unclaimed(fired: seq<Option<nat>>, y: Entry) { y.stage.Waiting? && !FlagSet(fired, y) }

  /** Unclaimed, or claimed by a task that is between its two CASes. */
  predicate Pending(fired: seq<Option<nat>>, y: Entry) { Unclaimed(fired, y) || y.stage.Firing? }

  function Queue(c: Chan, put: bool): seq<nat> { if put then c.putters else c.takers }

  predicate StillQueued(chans: seq<Chan>, fired: seq<Option<nat>>, y: Entry, e: nat) {
    Unclaimed(fired, y) ==> y.ch < |chans| && e in Queue(chans[y.ch], y.put)
  }

  predicate PendingAt(entries: seq<Entry>, fired: seq<Option<nat>>, e: nat) {
    e < |entries| && Pending(fired, entries[e])
  }

  /** Unless a Phase 2 put skipped a taker, a claimable taker means an empty buffer. */
  ghost predicate TakersOk(entries: seq<Entry>, fired: seq<Option<nat>>, c: Chan) {
    !c.skipped ==> forall i :: 0 <= i < |c.takers| && PendingAt(entries, fired, c.takers[i]) ==> c.buf == []
  }

  predicate Siblings(entries: seq<Entry>, d: nat, e: nat) {
    d < |entries| && e < |entries| && entries[d].sel.Some? && entries[d].sel == entries[e].sel
  }

  /** Claimable takers and putters of one channel belong to one select. */
  ghost predicate BothOk(entries: seq<Entry>, fired: seq<Option<nat>>, c: Chan) {
    forall i, j :: 0 <= i < |c.takers| && 0 <= j < |c.putters| ==>
      PendingAt(entries, fired, c.takers[i]) && PendingAt(entries, fired, c.putters[j]) ==>
        Siblings(entries, c.takers[i], c.putters[j])
  }

  // -------------------------------------------------------------------- closing

  /** How far the winner of a close of c has got: won, walking under the lock, past the walk. */
  function ClosePhase(pc: PC, c: nat): nat {
    if pc.CloseLock? && pc.c == c then 1
    else if CloseLocked(pc) && pc.c == c then 2
    else if (pc.ClosePost? || pc.CloseRun?) && pc.c == c then 3
    else 0
  }

  predicate CloserOk(tasks: seq<Task>, x: Chan, c: nat) {
    && (x.guard.Closing? <==> !x.closer.Nobody?)
    && match x.closer {
         case Nobody => !x.closed
         case Busy(w) =>
           && w < |tasks| && ClosePhase(tasks[w].pc, c) >= 1
           && (x.closed <==> ClosePhase(tasks[w].pc, c) >= 2)
           && (ClosePhase(tasks[w].pc, c) == 3 ==> x.takers == [] && x.putters == [])
         case Finished => x.closed && x.takers == [] && x.putters == []
       }
  }

  /** Which of the callbacks offered to the channel have run, each of them once. */
  ghost predicate CallbacksOk(x: Chan) {
    && NoDup(x.ran)
    && (forall f: nat :: f in x.ran <==>
          f < x.installs &&
          (x.onClose.None? || f > x.onClose.value || (f == x.onClose.value && x.closer.Finished?)))
    && (x.onClose.Some? ==> x.onClose.value < x.installs)
    && (!x.closed ==> x.onClose == if x.installs == 0 then None else Some(x.installs - 1))
  }

  ghost predicate ChanQueue(s: State, c: nat)
    requires c < |s.chans|
  {
    var x := s.chans[c];
    TakersOk(s.entries, s.fired, x) && BothOk(s.entries, s.fired, x) && CloserOk(s.tasks, x, c) && CallbacksOk(x)
    && |x.buf| <= x.cap
  }

  // --------------------------------------------------------------- trying arms

  /** The arm was found not ready. */
  predicate ArmWaits(chans: seq<Chan>, a: Arm) {
    && a.ch < |chans| && !chans[a.ch].closed
    && if a.put then chans[a.ch].takers == [] && |chans[a.ch].buf| >= chans[a.ch].cap
       else chans[a.ch].buf == [] && chans[a.ch].putters == []
  }

  /** What was seen of the arm before its counterpart list is walked. */
  predicate ArmTried(chans: seq<Chan>, a: Arm, two: bool) {
    && a.ch < |chans|
    && if a.put then !chans[a.ch].closed && (two ==> |chans[a.ch].buf| >= chans[a.ch].cap)
       else chans[a.ch].buf == []
  }

  predicate Phase5(pc: PC) { (pc.Attempt? || pc.Walk? || AtHead(pc)) && !pc.two }

  ghost predicate ReadyOk(chans: seq<Chan>, x: Task) {
    && (Phase5(x.pc) ==> x.pc.k <= |x.call.arms| && forall j :: 0 <= j < x.pc.k ==> ArmWaits(chans, x.call.arms[j]))
    && (x.pc.Walk? || AtHead(x.pc) ==> x.pc.k < |x.call.arms| && ArmTried(chans, x.call.arms[x.pc.k], x.pc.two))
  }

  predicate ClosingOk(chans: seq<Chan>, t: nat, pc: PC) {
    Closes(pc) && ClosePhase(pc, pc.c) >= 1 ==> pc.c < |chans| && chans[pc.c].closer == Busy(t)
  }

  ghost predicate TaskQueue(s: State, t: nat)
    requires t < |s.tasks|
  { ReadyOk(s.chans, s.tasks[t]) && ClosingOk(s.chans, t, s.tasks[t].pc) }

  ghost predicate Queues(s: State) {
    && (forall e :: 0 <= e < |s.entries| ==> StillQueued(s.chans, s.fired, s.entries[e], e))
    && (forall c :: 0 <= c < |s.chans| ==> ChanQueue(s, c))
    && (forall t :: 0 <= t < |s.tasks| ==> TaskQueue(s, t))
  }

  lemma QueuesInit(s: State)
    requires Init(s)
    ensures Queues(s)
  {
    forall c | 0 <= c < |s.chans| ensures ChanQueue(s, c) { }
  }

  // ------------------------------------------------------------ elementary updates

  /** A step that is not part of a close moves one task. */
  lemma QueuesTask(s: State, t: nat, x: Task)
    requires Queues(s) && t < |s.tasks| && ReadyOk(s.chans, x)
    requires forall c :: 0 <= c < |s.chans| && s.chans[c].closer == Busy(t) ==>
               ClosePhase(x.pc, c) == ClosePhase(s.tasks[t].pc, c)
    requires ClosingOk(s.chans, t, x.pc)
    ensures Queues(SetTask(s, t, x))
  {
    var r := SetTask(s, t, x);
    forall c | 0 <= c < |r.chans| ensures ChanQueue(r, c) { assert ChanQueue(s, c); }
    forall u | 0 <= u < |r.tasks| ensures TaskQueue(r, u) { if u != t { assert TaskQueue(s, u); } }
  }

  /** Entries lose claims, never gain them. */
  ghost predicate Fewer(s: State, r: State) {
    && |r.entries| == |s.entries|
    && (forall e :: 0 <= e < |s.entries| ==>
          && SameEntry(s.entries[e], r.entries[e])
          && (Pending(r.fired, r.entries[e]) ==> Pending(s.fired, s.entries[e]))
          && (Unclaimed(r.fired, r.entries[e]) ==> Unclaimed(s.fired, s.entries[e])))
  }

  lemma QueuesFewer(s: State, r: State)
    requires Queues(s) && Fewer(s, r) && r.chans == s.chans && r.tasks == s.tasks
    ensures Queues(r)
  {
    forall e | 0 <= e < |r.entries| ensures StillQueued(r.chans, r.fired, r.entries[e], e) {
      assert StillQueued(s.chans, s.fired, s.entries[e], e);
    }
    forall c | 0 <= c < |r.chans| ensures ChanQueue(r, c) { assert ChanQueue(s, c); }
    forall u | 0 <= u < |r.tasks| ensures TaskQueue(r, u) { assert TaskQueue(s, u); }
  }

  lemma QueuesSame(s: State, r: State)
    requires Queues(s) && r.chans == s.chans && r.tasks == s.tasks && r.entries == s.entries && r.fired == s.fired
    ensures Queues(r)
  { QueuesFewer(s, r); }

  predicate SameBody(c: Chan, d: Chan) {
    && d.takers == c.takers && d.putters == c.putters && d.buf == c.buf && d.cap == c.cap && d.closed == c.closed
    && d.closer == c.closer
  }

  /** A task that does not hold c does not depend on it. */
  lemma ReadyElsewhere(s: State, chans: seq<Chan>, u: nat, c: nat)
    requires Shape(s) && u < |s.tasks| && c < |s.chans| && c !in s.tasks[u].held
    requires |chans| == |s.chans| && (forall d :: 0 <= d < |chans| && d != c ==> chans[d] == s.chans[d])
    requires ReadyOk(s.chans, s.tasks[u])
    ensures ReadyOk(chans, s.tasks[u])
  {
    var x := s.tasks[u];
    assert TaskShape(s, u);
    if Phase5(x.pc) {
      forall j | 0 <= j < x.pc.k ensures ArmWaits(chans, x.call.arms[j]) { assert ArmWaits(s.chans, x.call.arms[j]); }
    }
    if x.pc.Walk? || AtHead(x.pc) { ArmLocked(s, u); }
  }

  /** A step on a channel that its task has locked. */
  lemma QueuesChan(s: State, t: nat, c: nat, x: Chan)
    requires Shape(s) && Queues(s) && t < |s.tasks| && c < |s.chans| && c in s.tasks[t].held
    requires forall e :: 0 <= e < |s.entries| && s.entries[e].ch == c && Unclaimed(s.fired, s.entries[e]) ==>
               e in Queue(x, s.entries[e].put)
    requires ChanQueue(SetChan(s, c, x), c)
    requires x.closer == s.chans[c].closer
    requires ReadyOk(s.chans[c := x], s.tasks[t])
    ensures Queues(SetChan(s, c, x))
  {
    var r := SetChan(s, c, x);
    forall e | 0 <= e < |r.entries| ensures StillQueued(r.chans, r.fired, r.entries[e], e) {
      assert StillQueued(s.chans, s.fired, s.entries[e], e);
    }
    forall d | 0 <= d < |r.chans| ensures ChanQueue(r, d) { if d != c { assert ChanQueue(s, d); } }
    forall u | 0 <= u < |r.tasks| ensures TaskQueue(r, u) {
      assert TaskQueue(s, u);
      if u != t {
        if c in s.tasks[u].held { Exclusive(s, t, u, c); }
        ReadyElsewhere(s, r.chans, u, c);
      }
    }
  }

  /** Fields that this layer does not mention, or mentions only for the callbacks. */
  lemma QueuesSoft(s: State, c: nat, x: Chan)
    requires Queues(s) && c < |s.chans| && SameBody(s.chans[c], x) && x.skipped == s.chans[c].skipped
    requires CallbacksOk(x) && (x.guard.Closing? <==> s.chans[c].guard.Closing?)
    ensures Queues(SetChan(s, c, x))
  {
    var r := SetChan(s, c, x);
    assert ChanQueue(s, c);
    forall e | 0 <= e < |r.entries| ensures StillQueued(r.chans, r.fired, r.entries[e], e) {
      assert StillQueued(s.chans, s.fired, s.entries[e], e);
    }
    forall d | 0 <= d < |r.chans| ensures ChanQueue(r, d) { assert ChanQueue(s, d); }
    forall u | 0 <= u < |r.tasks| ensures TaskQueue(r, u) {
      assert TaskQueue(s, u); SoftReady(s.chans, c, x, s.tasks[u]);
    }
  }

  lemma SoftReady(chans: seq<Chan>, c: nat, x: Chan, y: Task)
    requires c < |chans| && SameBody(chans[c], x) && ReadyOk(chans, y)
    ensures ReadyOk(chans[c := x], y)
  {
    if Phase5(y.pc) {
      var cs := chans[c := x];
      forall j | 0 <= j < y.pc.k ensures ArmWaits(cs, y.call.arms[j]) { assert ArmWaits(chans, y.call.arms[j]); }
    }
  }

  // ------------------------------------------------------------------ unlinking

  lemma ShortQueue(s: State, c: nat, x: Chan, i: nat, j: nat)
    requires Queues(s) && c < |s.chans| && Shortened(s.chans[c], x, i, j)
    requires x.buf == s.chans[c].buf && x.skipped == s.chans[c].skipped && x.cap == s.chans[c].cap
    requires x.guard == s.chans[c].guard && x.closer == s.chans[c].closer && x.closed == s.chans[c].closed
    requires x.ran == s.chans[c].ran && x.installs == s.chans[c].installs && x.onClose == s.chans[c].onClose
    ensures ChanQueue(SetChan(s, c, x), c)
  { assert ChanQueue(s, c); }

  predicate OnlyLists(c: Chan, x: Chan) { x == c.(takers := x.takers, putters := x.putters, deq := x.deq) }

  lemma ShortReady(chans: seq<Chan>, c: nat, x: Chan, i: nat, j: nat, y: Task)
    requires c < |chans| && Shortened(chans[c], x, i, j) && OnlyLists(chans[c], x) && ReadyOk(chans, y)
    ensures ReadyOk(chans[c := x], y)
  {
    if Phase5(y.pc) {
      var cs := chans[c := x];
      forall n | 0 <= n < y.pc.k ensures ArmWaits(cs, y.call.arms[n]) { assert ArmWaits(chans, y.call.arms[n]); }
    }
  }

  /** The head of a locked list is dropped, and it was not open to claims. */
  lemma QueuesUnlink(s: State, t: nat, c: nat, x: Chan, e: nat, i: nat, j: nat)
    requires Shape(s) && Queues(s) && t < |s.tasks| && c < |s.chans| && c in s.tasks[t].held
    requires Shortened(s.chans[c], x, i, j) && OnlyLists(s.chans[c], x)
    requires (i == 1 && j == 0 && s.chans[c].takers[0] == e) || (i == 0 && j == 1 && s.chans[c].putters[0] == e)
    requires e < |s.entries| && !Unclaimed(s.fired, s.entries[e])
    ensures Queues(SetChan(s, c, x))
  {
    forall d | 0 <= d < |s.entries| && s.entries[d].ch == c
        && Unclaimed(s.fired, s.entries[d]) ensures d in Queue(x, s.entries[d].put) {
      assert StillQueued(s.chans, s.fired, s.entries[d], d);
    }
    assert TaskQueue(s, t);
    ShortReady(s.chans, c, x, i, j, s.tasks[t]);
    ShortQueue(s, c, x, i, j);
    QueuesChan(s, t, c, x);
  }

  lemma QueuesDropHead(s: State, t: nat)
    requires Shape(s) && Queues(s) && WalkOk(s, t)
    requires var a := s.tasks[t].call.arms[s.tasks[t].pc.k];
             Others(s.chans[a.ch], a.put) != [] && !Unclaimed(s.fired, s.entries[Others(s.chans[a.ch], a.put)[0]])
    ensures Queues(DropHead(s, t))
  {
    var x := s.tasks[t]; var a := x.call.arms[x.pc.k]; var e := Others(s.chans[a.ch], a.put)[0];
    var i := if a.put then 1 else 0; var ch := Unlinked(s.chans[a.ch], a.put);
    ArmLocked(s, t);
    QueuesUnlink(s, t, a.ch, ch, e, i, 1 - i);
    var s1 := SetChan(s, a.ch, ch);
    assert TaskQueue(s1, t);
    NotCloser(s1, t);
    QueuesTask(s1, t, x.(pc := Walk(x.pc.two, x.pc.k)));
  }

  /** A task inside a call is not the winner of any close. */
  lemma NotCloser(s: State, t: nat)
    requires Queues(s) && t < |s.tasks| && (!Closes(s.tasks[t].pc) || s.tasks[t].pc.CloseCas?
             || s.tasks[t].pc.CloseCas2?)
    ensures forall c :: 0 <= c < |s.chans| ==> s.chans[c].closer != Busy(t)
  {
    forall c | 0 <= c < |s.chans| ensures s.chans[c].closer != Busy(t) { assert ChanQueue(s, c); }
  }

  /** A task inside a call moves; it is not part of a close before or after. */
  lemma QueuesGoto(s: State, t: nat, x: Task)
    requires Queues(s) && t < |s.tasks| && !Closes(s.tasks[t].pc) && ReadyOk(s.chans, x)
    requires !Closes(x.pc) || x.pc.CloseCas? || x.pc.CloseCas2?
    ensures Queues(SetTask(s, t, x))
  {
    NotCloser(s, t);
    QueuesTask(s, t, x);
  }

  lemma QueuesRelock(s: State, c: nat, lock: Option<nat>)
    requires Queues(s) && c < |s.chans|
    ensures Queues(SetChan(s, c, s.chans[c].(lock := lock)))
  {
    assert ChanQueue(s, c);
    QueuesSoft(s, c, s.chans[c].(lock := lock));
  }

  lemma QueuesLock(s: State, t: nat, c: nat, pc: PC)
    requires Queues(s) && t < |s.tasks| && LockFree(s, c) && !Closes(s.tasks[t].pc) && !Closes(pc)
    requires ReadyOk(s.chans, s.tasks[t].(held := s.tasks[t].held + [c], pc := pc))
    ensures Queues(Lock(s, t, c, pc))
  {
    var x := s.tasks[t].(held := s.tasks[t].held + [c], pc := pc);
    QueuesGoto(s, t, x);
    QueuesRelock(SetTask(s, t, x), c, Some(t));
  }

  lemma QueuesUnlock(s: State, t: nat, pc: PC)
    requires Queues(s) && t < |s.tasks| && s.tasks[t].held != [] && s.tasks[t].held[|s.tasks[t].held| - 1] < |s.chans|
    requires !Closes(s.tasks[t].pc) && !Closes(pc) && !Phase5(pc) && !pc.Walk? && !AtHead(pc)
    ensures Queues(Unlock(s, t, pc))
  {
    var x := s.tasks[t].(held := s.tasks[t].held[..|s.tasks[t].held| - 1], pc := pc);
    QueuesGoto(s, t, x);
    QueuesRelock(SetTask(s, t, x), s.tasks[t].held[|s.tasks[t].held| - 1], None);
  }

  // -------------------------------------------------------------------- buffers

  lemma QueuesTakeBuffer(s: State, t: nat, k: nat, c: nat)
    requires Shape(s) && Queues(s) && t < |s.tasks| && c < |s.chans| && c in s.tasks[t].held
    requires s.chans[c].buf != [] && s.chans[c].buf[0] < |s.msgs| && !Closes(s.tasks[t].pc)
    requires InCall(s.tasks[t].pc)
    ensures Queues(TakeBuffer(s, t, k, c))
  {
    var r := TakeBuffer(s, t, k, c); var s1 := SetTask(s, t, r.tasks[t]);
    ShapeTask(s, t, r.tasks[t]);
    QueuesGoto(s, t, r.tasks[t]);
    forall e | 0 <= e < |s1.entries| && s1.entries[e].ch == c && Unclaimed(s1.fired, s1.entries[e])
      ensures e in Queue(r.chans[c], s1.entries[e].put) { assert StillQueued(s1.chans, s1.fired, s1.entries[e], e); }
    assert ChanQueue(s1, c);
    QueuesChan(s1, t, c, r.chans[c]);
    QueuesSame(SetChan(s1, c, r.chans[c]), r);
  }

  /** Buffering a message is right when no claimable taker is left, or the skip is recorded. */
  lemma QueuesPutBuffer(s: State, t: nat, k: nat, c: nat)
    requires Shape(s) && Claims(s) && Queues(s) && t < |s.tasks| && c < |s.chans| && c in s.tasks[t].held
    requires s.tasks[t].call.base + k < |s.msgs| && (s.tasks[t].pc.Attempt? || s.tasks[t].pc.Walk?)
    requires |s.chans[c].buf| < s.chans[c].cap
    ensures Queues(PutBuffer(s, t, k, c))
  {
    var r := PutBuffer(s, t, k, c); var s1 := SetTask(s, t, r.tasks[t]); var x := r.chans[c];
    ShapeTask(s, t, r.tasks[t]);
    QueuesGoto(s, t, r.tasks[t]);
    forall e | 0 <= e < |s1.entries| && s1.entries[e].ch == c && Unclaimed(s1.fired, s1.entries[e])
      ensures e in Queue(x, s1.entries[e].put) { assert StillQueued(s1.chans, s1.fired, s1.entries[e], e); }
    assert ChanQueue(s1, c);
    forall i | 0 <= i < |x.takers| && !x.skipped ensures !PendingAt(s.entries, s.fired, x.takers[i]) {
      HeadWaits(s, t, c, x.takers[i]);
      assert !Live(s, x.takers[i]);
      assert EntryClaim(s, x.takers[i]);
    }
    QueuesChan(s1, t, c, x);
    QueuesSame(SetChan(s1, c, x), r);
  }

  // -------------------------------------------------------------------- parking

  /** The arms that a parking task found not ready under its locks. */
  lemma AllWait(s: State, t: nat)
    requires Shape(s) && Queues(s) && t < |s.tasks| && AtPark(s.tasks[t])
    ensures forall j :: 0 <= j < |s.tasks[t].call.arms| ==> ArmWaits(s.chans, s.tasks[t].call.arms[j])
  { assert TaskQueue(s, t); }

  /** Entries that park are new, so what holds of the old ones still does. */
  lemma ParkOld(s: State, t: nat, e: nat)
    requires t < |s.tasks| && Shape(s) && e < |s.entries|
    ensures Park(s, t).entries[e] == s.entries[e]
    ensures Unclaimed(Park(s, t).fired, s.entries[e]) <==> Unclaimed(s.fired, s.entries[e])
    ensures PendingAt(Park(s, t).entries, Park(s, t).fired, e) <==> PendingAt(s.entries, s.fired, e)
  { assert EntryShape(s, e); }

  lemma ParkTakers(s: State, t: nat, c: nat)
    requires Shape(s) && Queues(s) && t < |s.tasks| && AtPark(s.tasks[t]) && c < |s.chans|
    ensures TakersOk(Park(s, t).entries, Park(s, t).fired, Park(s, t).chans[c])
  {
    var r := Park(s, t); var x := r.chans[c]; var arms := s.tasks[t].call.arms; var n := |s.entries|;
    AllWait(s, t);
    assert ChanQueue(s, c) && ChanShape(s, c);
    JoiningOk(arms, c, false, n);
    if j :| 0 <= j < |arms| && arms[j] == Arm(c, false) {
      assert ArmWaits(s.chans, arms[j]);
    } else {
      JoiningNone(arms, c, false, n);
      forall i | 0 <= i < |x.takers| && PendingAt(r.entries, r.fired, x.takers[i]) && !x.skipped ensures x.buf == [] {
        assert Queueable(s.entries, s.chans[c].takers[i], c, false);
        ParkOld(s, t, x.takers[i]);
      }
    }
  }

  /** Two entries that queue up together belong to the same select. */
  lemma ParkSiblings(s: State, t: nat, d: nat, e: nat)
    requires Shape(s) && t < |s.tasks| && AtPark(s.tasks[t])
    requires |s.entries| <= d < |Park(s, t).entries| && |s.entries| <= e < |Park(s, t).entries| && d != e
    ensures Siblings(Park(s, t).entries, d, e)
  { assert TaskShape(s, t); }

  /** A list is joined only when the counterpart list was found empty. */
  lemma ParkFresh(s: State, t: nat, c: nat, put: bool)
    requires Shape(s) && Queues(s) && t < |s.tasks| && AtPark(s.tasks[t]) && c < |s.chans|
    ensures Joining(s.tasks[t].call.arms, c, put, |s.entries|) != [] ==> Others(s.chans[c], put) == []
  {
    var arms := s.tasks[t].call.arms; var list := Joining(arms, c, put, |s.entries|);
    JoiningOk(arms, c, put, |s.entries|);
    AllWait(s, t);
    if list != [] { assert ArmWaits(s.chans, arms[list[0] - |s.entries|]); }
  }

  lemma ParkBoth(s: State, t: nat, c: nat)
    requires Shape(s) && Queues(s) && t < |s.tasks| && AtPark(s.tasks[t]) && c < |s.chans|
    ensures BothOk(Park(s, t).entries, Park(s, t).fired, Park(s, t).chans[c])
  {
    var r := Park(s, t); var x := r.chans[c];
    forall i, j | 0 <= i < |x.takers| && 0 <= j < |x.putters|
      ensures PendingAt(r.entries, r.fired, x.takers[i]) && PendingAt(r.entries, r.fired, x.putters[j]) ==>
                Siblings(r.entries, x.takers[i], x.putters[j])
    { ParkPair(s, t, c, i, j); }
  }

  lemma ParkPair(s: State, t: nat, c: nat, i: nat, j: nat)
    requires Shape(s) && Queues(s) && t < |s.tasks| && AtPark(s.tasks[t]) && c < |s.chans|
    requires i < |Park(s, t).chans[c].takers| && j < |Park(s, t).chans[c].putters|
    ensures var r := Park(s, t); var d := r.chans[c].takers[i]; var e := r.chans[c].putters[j];
            PendingAt(r.entries, r.fired, d) && PendingAt(r.entries, r.fired, e) ==> Siblings(r.entries, d, e)
  {
    var y := s.chans[c]; var arms := s.tasks[t].call.arms; var n := |s.entries|;
    ParkFresh(s, t, c, false);
    ParkFresh(s, t, c, true);
    if i < |y.takers| && j < |y.putters| {
      assert ChanShape(s, c) && ChanQueue(s, c);
      assert Queueable(s.entries, y.takers[i], c, false) && Queueable(s.entries, y.putters[j], c, true);
      ParkOld(s, t, y.takers[i]);
      ParkOld(s, t, y.putters[j]);
    } else {
      JoiningOk(arms, c, false, n);
      JoiningOk(arms, c, true, n);
      ParkSiblings(s, t, Joining(arms, c, false, n)[i - |y.takers|], Joining(arms, c, true, n)[j - |y.putters|]);
    }
  }

  lemma ParkChan(s: State, t: nat, c: nat)
    requires Shape(s) && Queues(s) && t < |s.tasks| && AtPark(s.tasks[t]) && c < |s.chans|
    ensures ChanQueue(Park(s, t), c)
  {
    var arms := s.tasks[t].call.arms;
    ParkTakers(s, t, c);
    ParkBoth(s, t, c);
    AllWait(s, t);
    assert ChanQueue(s, c);
    if s.chans[c].closed {
      forall j | 0 <= j < |arms| ensures arms[j].ch != c { assert ArmWaits(s.chans, arms[j]); }
      JoinedElsewhere(s.chans[c], arms, c, |s.entries|);
    }
  }

  lemma ParkTask(s: State, t: nat, u: nat)
    requires Shape(s) && Queues(s) && t < |s.tasks| && AtPark(s.tasks[t]) && u < |s.tasks|
    ensures TaskQueue(Park(s, t), u)
  {
    var r := Park(s, t); var x := s.tasks[u];
    assert TaskQueue(s, u) && TaskShape(s, u);
    if u != t {
      if Phase5(x.pc) {
        forall j | 0 <= j < x.pc.k ensures ArmWaits(r.chans, x.call.arms[j]) {
          ParkUnseen(s, t, u, x.call.arms[j].ch);
          assert ArmWaits(s.chans, x.call.arms[j]);
        }
      }
      if x.pc.Walk? || AtHead(x.pc) {
        ArmLocked(s, u);
        ParkUnseen(s, t, u, x.call.arms[x.pc.k].ch);
      }
    }
  }

  lemma ParkQueuedNew(s: State, t: nat, j: nat)
    requires Shape(s) && t < |s.tasks| && AtPark(s.tasks[t]) && j < |s.tasks[t].call.arms|
    ensures var r := Park(s, t); var e := |s.entries| + j;
            e < |r.entries| && r.entries[e].ch < |r.chans| && e in Queue(r.chans[r.entries[e].ch], r.entries[e].put)
  {
    var call := s.tasks[t].call; var a := call.arms[j];
    assert TaskShape(s, t);
    JoiningHas(call.arms, a.ch, a.put, |s.entries|, j);
  }

  lemma ParkQueued(s: State, t: nat, e: nat)
    requires Shape(s) && Queues(s) && t < |s.tasks| && AtPark(s.tasks[t]) && e < |Park(s, t).entries|
    ensures StillQueued(Park(s, t).chans, Park(s, t).fired, Park(s, t).entries[e], e)
  {
    if e < |s.entries| {
      ParkOld(s, t, e);
      assert StillQueued(s.chans, s.fired, s.entries[e], e);
    } else {
      ParkQueuedNew(s, t, e - |s.entries|);
    }
  }

  lemma QueuesPark(s: State, t: nat)
    requires Shape(s) && Queues(s) && t < |s.tasks| && AtPark(s.tasks[t])
    ensures Queues(Park(s, t))
  {
    var r := Park(s, t);
    forall e | 0 <= e < |r.entries| ensures StillQueued(r.chans, r.fired, r.entries[e], e) { ParkQueued(s, t, e); }
    forall c | 0 <= c < |r.chans| ensures ChanQueue(r, c) { ParkChan(s, t, c); }
    forall u | 0 <= u < |r.tasks| ensures TaskQueue(r, u) { ParkTask(s, t, u); }
  }

  // -------------------------------------------------------------------- closing

  /** A step of the winner of the close of c. */
  lemma QueuesClose(s: State, t: nat, x: Task, c: nat, ch: Chan)
    requires Shape(s) && Queues(s) && t < |s.tasks| && c < |s.chans|
    requires c in s.tasks[t].held || s.chans[c].lock.None? || SameBody(s.chans[c], ch.(closer := s.chans[c].closer))
    requires s.chans[c].closer == Busy(t) || s.chans[c].closer.Nobody?
    requires forall d :: 0 <= d < |s.chans| && d != c ==> s.chans[d].closer != Busy(t)
    requires ch.takers == s.chans[c].takers && ch.putters == s.chans[c].putters
    requires var r := SetChan(SetTask(s, t, x), c, ch); ChanQueue(r, c) && TaskQueue(r, t)
    ensures Queues(SetChan(SetTask(s, t, x), c, ch))
  {
    var r := SetChan(SetTask(s, t, x), c, ch);
    forall e | 0 <= e < |r.entries| ensures StillQueued(r.chans, r.fired, r.entries[e], e) {
      assert StillQueued(s.chans, s.fired, s.entries[e], e);
    }
    forall d | 0 <= d < |r.chans| ensures ChanQueue(r, d) { if d != c { assert ChanQueue(s, d); } }
    forall u | 0 <= u < |r.tasks| ensures TaskQueue(r, u) {
      if u != t {
        assert TaskQueue(s, u) && TaskLocks(s, u);
        if c in s.tasks[u].held {
          if c in s.tasks[t].held { Exclusive(s, t, u, c); }
          CloserReady(s.chans, c, ch, s.tasks[u]);
        } else { ReadyElsewhere(s, r.chans, u, c); }
      }
    }
  }

  lemma CloserReady(chans: seq<Chan>, c: nat, x: Chan, y: Task)
    requires c < |chans| && SameBody(chans[c], x.(closer := chans[c].closer)) && ReadyOk(chans, y)
    ensures ReadyOk(chans[c := x], y)
  {
    if Phase5(y.pc) {
      var cs := chans[c := x];
      forall j | 0 <= j < y.pc.k ensures ArmWaits(cs, y.call.arms[j]) { assert ArmWaits(chans, y.call.arms[j]); }
    }
  }

  /** The winner of one close is not the winner of another. */
  lemma OneClose(s: State, t: nat)
    requires Queues(s) && t < |s.tasks| && Closes(s.tasks[t].pc)
    ensures forall d :: 0 <= d < |s.chans| && d != s.tasks[t].pc.c ==> s.chans[d].closer != Busy(t)
  {
    forall d | 0 <= d < |s.chans| && d != s.tasks[t].pc.c ensures s.chans[d].closer != Busy(t) {
      assert ChanQueue(s, d);
    }
  }

  lemma QueuesWinClose(s: State, t: nat, c: nat)
    requires Shape(s) && Queues(s) && t < |s.tasks| && (s.tasks[t].pc.CloseCas? || s.tasks[t].pc.CloseCas2?)
    requires c < |s.chans| && !s.chans[c].guard.Closing?
    ensures Queues(WinClose(s, t, c))
  {
    var r := WinClose(s, t, c);
    NotCloser(s, t);
    assert ChanQueue(s, c);
    QueuesClose(s, t, r.tasks[t], c, r.chans[c]);
  }

  lemma QueuesCloseCas(s: State, t: nat)
    requires Shape(s) && Queues(s) && CanStep(s, t) && (s.tasks[t].pc.CloseCas? || s.tasks[t].pc.CloseCas2?)
    ensures Queues(Step(s, t))
  {
    var r := Step(s, t);
    if r.tasks[t].pc.CloseLock? { QueuesWinClose(s, t, s.tasks[t].pc.c); }
    else {
      NotCloser(s, t);
      QueuesTask(s, t, r.tasks[t]);
    }
  }

  lemma QueuesCloseLock(s: State, t: nat)
    requires Shape(s) && Queues(s) && CanStep(s, t) && s.tasks[t].pc.CloseLock?
    ensures Queues(Step(s, t))
  {
    var c := s.tasks[t].pc.c; var r := Step(s, t);
    OneClose(s, t);
    assert ChanQueue(s, c) && TaskQueue(s, t);
    assert r.chans == s.chans[c := r.chans[c]];
    QueuesClose(s, t, r.tasks[t], c, r.chans[c]);
  }

  lemma NoDupAppend(s: seq<nat>, f: nat)
    requires NoDup(s) && f !in s
    ensures NoDup(s + [f])
    ensures forall g: nat :: g in s + [f] <==> g in s || g == f
  { }

  /** The callback that was installed when the channel closed runs at the end of the close. */
  lemma CallbackRuns(x: Chan)
    requires CallbacksOk(x) && x.closer.Busy? && x.closed
    ensures CallbacksOk(x.(closer := Finished, ran := if x.onClose.Some? then x.ran + [x.onClose.value] else x.ran))
  { if x.onClose.Some? { NoDupAppend(x.ran, x.onClose.value); } }

  /** A callback offered to a closed channel runs at once; before that it replaces the installed one. */
  lemma CallbackOffered(x: Chan)
    requires CallbacksOk(x) && (x.closer.Finished? ==> x.closed)
    ensures CallbacksOk(if x.closed then x.(installs := x.installs + 1, ran := x.ran + [x.installs])
                        else x.(installs := x.installs + 1, onClose := Some(x.installs)))
  {
    if x.closed { NoDupAppend(x.ran, x.installs); }
  }

  lemma QueuesCloseRun(s: State, t: nat)
    requires Shape(s) && Queues(s) && CanStep(s, t) && s.tasks[t].pc.CloseRun?
    ensures Queues(Step(s, t))
  {
    var c := s.tasks[t].pc.c; var r := Step(s, t);
    OneClose(s, t);
    assert ChanQueue(s, c) && TaskQueue(s, t);
    CallbackRuns(s.chans[c]);
    QueuesClose(s, t, r.tasks[t], c, r.chans[c]);
  }

  lemma QueuesCloseGoto(s: State, t: nat, x: Task)
    requires Queues(s) && t < |s.tasks| && Closes(s.tasks[t].pc) && Closes(x.pc) && x.pc.c == s.tasks[t].pc.c
    requires ClosePhase(x.pc, x.pc.c) == ClosePhase(s.tasks[t].pc, x.pc.c)
    ensures Queues(SetTask(s, t, x))
  {
    OneClose(s, t);
    assert TaskQueue(s, t);
    QueuesTask(s, t, x);
  }

  lemma QueuesCloseNext(s: State, t: nat, x: Task)
    requires Shape(s) && Queues(s) && CloseWalkOk(s, t) && CloseTarget(s.chans[s.tasks[t].pc.c]).Some?
    requires !Unclaimed(s.fired, s.entries[CloseTarget(s.chans[s.tasks[t].pc.c]).value])
    requires CloseLocked(x.pc) && x.pc.c == s.tasks[t].pc.c
    ensures Queues(SetChan(SetTask(s, t, x), x.pc.c, CloseDrop(s.chans[x.pc.c])))
  {
    var c := x.pc.c; var i := if s.chans[c].takers != [] then 1 else 0; var ch := CloseDrop(s.chans[c]);
    assert TaskShape(s, t);
    QueuesUnlink(s, t, c, ch, CloseTarget(s.chans[c]).value, i, 1 - i);
    QueuesCloseGoto(SetChan(s, c, ch), t, x);
  }

  lemma QueuesCloseWalk(s: State, t: nat)
    requires Shape(s) && Claims(s) && Queues(s) && CloseWalkOk(s, t) && s.tasks[t].pc.CloseWalk?
    ensures Queues(StepCloseWalk(s, t))
  {
    var x := s.tasks[t]; var c := x.pc.c; var r := StepCloseWalk(s, t); var target := CloseTarget(s.chans[c]);
    assert TaskShape(s, t);
    if target.None? {
      OneClose(s, t);
      assert ChanQueue(s, c) && TaskQueue(s, t);
      QueuesClose(s, t, r.tasks[t], c, r.chans[c]);
    } else if s.entries[target.value].cancelled {
      assert EntryClaim(s, target.value);
      QueuesCloseNext(s, t, r.tasks[t]);
    } else { QueuesCloseGoto(s, t, r.tasks[t]); }
  }

  // ------------------------------------------------------------------- entries

  lemma FewerFired(s: State, t: nat, e: nat)
    requires Claims(s) && EntryOk(s, e) && Unclaimed(s.fired, s.entries[e])
    ensures Fewer(s, MarkFired(s, t, e))
  {
    var r := MarkFired(s, t, e);
    forall d | 0 <= d < |s.entries|
      ensures && SameEntry(s.entries[d], r.entries[d])
              && (Pending(r.fired, r.entries[d]) ==> Pending(s.fired, s.entries[d]))
              && (Unclaimed(r.fired, r.entries[d]) ==> Unclaimed(s.fired, s.entries[d]))
    { assert EntryClaim(s, d); }
  }

  lemma QueuesEntry(s: State, e: nat, y: Entry)
    requires Queues(s) && e < |s.entries| && SameEntry(s.entries[e], y)
    requires Pending(s.fired, y) ==> Pending(s.fired, s.entries[e])
    requires Unclaimed(s.fired, y) ==> Unclaimed(s.fired, s.entries[e])
    ensures Queues(SetEntry(s, e, y))
  { QueuesFewer(s, SetEntry(s, e, y)); }

  lemma QueuesPost(s: State, e: nat)
    requires Queues(s) && EntryOk(s, e)
    ensures Queues(Post(s, e))
  {
    var o := s.entries[e].owner; var r := Post(s, e);
    assert TaskQueue(s, o);
    QueuesTask(s, o, r.tasks[o]);
    QueuesEntry(SetTask(s, o, r.tasks[o]), e, r.entries[e]);
  }

  // --------------------------------------------------------------------- steps

  lemma QueuesScan(s: State, t: nat)
    requires Queues(s) && CanStep(s, t) && (s.tasks[t].pc.Scan? || s.tasks[t].pc.Acquire?)
    ensures Queues(Step(s, t))
  {
    var x := s.tasks[t];
    if x.pc.Scan? && x.pc.k < |x.call.arms| { QueuesLock(s, t, x.call.arms[x.pc.k].ch, Attempt(true, x.pc.k)); }
    else if x.pc.Acquire? && |x.held| < |x.call.order| { QueuesLock(s, t, x.call.order[|x.held|], Acquire); }
    else { QueuesGoto(s, t, Step(s, t).tasks[t]); }
  }

  lemma QueuesAttemptArm(s: State, t: nat)
    requires Shape(s) && Claims(s) && Queues(s) && AttemptOk(s, t) && s.tasks[t].pc.Attempt?
             && s.tasks[t].pc.k < |s.tasks[t].call.arms|
    ensures Queues(StepAttempt(s, t))
  {
    var x := s.tasks[t]; var k := x.pc.k; var a := x.call.arms[k]; var c := s.chans[a.ch];
    ArmLocked(s, t);
    if !a.put && c.buf != [] { QueuesTakeBuffer(s, t, k, a.ch); }
    else if a.put && !c.closed && x.pc.two && |c.buf| < c.cap { QueuesPutBuffer(s, t, k, a.ch); }
    else {
      assert TaskQueue(s, t);
      QueuesGoto(s, t, StepAttempt(s, t).tasks[t]);
    }
  }

  lemma QueuesAttempt(s: State, t: nat)
    requires Shape(s) && Claims(s) && Queues(s) && AttemptOk(s, t) && s.tasks[t].pc.Attempt?
    ensures Queues(StepAttempt(s, t))
  {
    var x := s.tasks[t];
    if x.pc.k < |x.call.arms| { QueuesAttemptArm(s, t); }
    else if !x.call.how.Try? { QueuesPark(s, t); }
    else { QueuesGoto(s, t, x.(pc := Release(Empty))); }
  }

  lemma QueuesWalk(s: State, t: nat)
    requires Shape(s) && Claims(s) && Queues(s) && WalkOk(s, t) && s.tasks[t].pc.Walk?
    ensures Queues(StepWalk(s, t))
  {
    var x := s.tasks[t]; var k := x.pc.k; var a := x.call.arms[k]; var c := s.chans[a.ch];
    var list := Others(c, a.put); var r := StepWalk(s, t);
    assert TaskQueue(s, t);
    ArmLocked(s, t);
    if list == [] {
      if !a.put && c.closed { QueuesGoto(s, t, r.tasks[t]); }
      else if a.put && !x.pc.two && |c.buf| < c.cap { QueuesPutBuffer(s, t, k, a.ch); }
      else if x.pc.two { QueuesUnlock(s, t, Scan(k + 1)); }
      else { QueuesGoto(s, t, r.tasks[t]); }
    } else if s.entries[list[0]].cancelled { assert EntryClaim(s, list[0]); QueuesDropHead(s, t); }
    else { QueuesGoto(s, t, r.tasks[t]); }
  }

  lemma UnclaimedNotStale(s: State, e: nat)
    requires Shape(s) && Claims(s) && EntryOk(s, e)
    ensures Unclaimed(s.fired, s.entries[e]) && s.tasks[s.entries[e].owner].kind.Fiber? ==> !StalePark(s, e)
  {
    if Unclaimed(s.fired, s.entries[e]) {
      LiveAsleep(s, e);
      assert TaskClaim(s, s.entries[e].owner) && EntryClaim(s, e);
    }
  }

  /** The stale check of wake_claim never turns away an entry that is open to claims. */
  lemma QueuesLook(s: State, t: nat)
    requires Shape(s) && Claims(s) && Queues(s) && WalkOk(s, t) && s.tasks[t].pc.Look?
    ensures Queues(StepLook(s, t))
  {
    var x := s.tasks[t]; var a := x.call.arms[x.pc.k]; var e := Others(s.chans[a.ch], a.put)[0];
    var r := StepLook(s, t);
    assert TaskQueue(s, t);
    if r.tasks[t].pc.Walk? {
      UnclaimedNotStale(s, e);
      QueuesDropHead(s, t);
    } else { QueuesGoto(s, t, r.tasks[t]); }
  }

  lemma QueuesFire(s: State, t: nat)
    requires Shape(s) && Claims(s) && Queues(s) && WalkOk(s, t) && s.tasks[t].pc.Fire?
    ensures Queues(StepFire(s, t))
  {
    var x := s.tasks[t]; var a := x.call.arms[x.pc.k]; var e := Others(s.chans[a.ch], a.put)[0];
    if FiredOver(s, e) { QueuesDropHead(s, t); }
    else {
      ArmLocked(s, t);
      HeadWaits(s, t, a.ch, e);
      assert TaskQueue(s, t);
      FewerFired(s, t, e);
      QueuesFewer(s, MarkFired(s, t, e));
      QueuesGoto(MarkFired(s, t, e), t, StepFire(s, t).tasks[t]);
    }
  }

  /** The second CAS succeeds on the head of the locked list. */
  lemma WakeHead(s: State, t: nat)
    requires Shape(s) && Claims(s) && WalkOk(s, t) && s.tasks[t].pc.Wake?
    ensures var a := s.tasks[t].call.arms[s.tasks[t].pc.k]; var e := Others(s.chans[a.ch], a.put)[0];
            e == s.tasks[t].pc.e && !s.entries[e].woken && s.entries[e].stage == Firing(t) && a.ch in s.tasks[t].held
  {
    assert TaskClaim(s, t) && TaskShape(s, t);
    ArmLocked(s, t);
    assert EntryClaim(s, s.tasks[t].pc.e);
  }

  lemma QueuesWoken(s: State, t: nat, x: Task, e: nat, z: Entry)
    requires Queues(s) && t < |s.tasks| && s.tasks[t].pc.Wake? && (x.pc.Deliver? || x.pc.Release?)
    requires e < |s.entries| && s.entries[e].stage.Firing? && WakingEntry(s.entries[e], z, t)
    ensures Queues(Woken(s, t, x, e, z))
  {
    QueuesGoto(s, t, x);
    QueuesEntry(SetTask(s, t, x), e, z);
  }

  lemma QueuesWake(s: State, t: nat)
    requires Shape(s) && Claims(s) && Queues(s) && WalkOk(s, t) && s.tasks[t].pc.Wake?
    ensures Queues(StepWake(s, t))
  {
    var x := s.tasks[t]; var a := x.call.arms[x.pc.k]; var e := Others(s.chans[a.ch], a.put)[0];
    var r := StepWake(s, t);
    var i := if a.put then 1 else 0;
    WakeHead(s, t);
    QueuesUnlink(s, t, a.ch, r.chans[a.ch], e, i, 1 - i);
    QueuesWoken(SetChan(s, a.ch, r.chans[a.ch]), t, r.tasks[t], e, r.entries[e]);
    QueuesSame(Woken(SetChan(s, a.ch, r.chans[a.ch]), t, r.tasks[t], e, r.entries[e]), r);
  }

  lemma QueuesDeliver(s: State, t: nat)
    requires Claims(s) && Queues(s) && DeliverOk(s, t) && (s.tasks[t].pc.Deliver? || s.tasks[t].pc.PostOut?)
    ensures Queues(StepDeliver(s, t))
  {
    var x := s.tasks[t]; var e := x.owed[0];
    assert TaskClaim(s, t);
    assert OwesEntry(s.tasks, s.entries, t, e, true) || OwesEntry(s.tasks, s.entries, t, e, false);
    if s.tasks[s.entries[e].owner].kind.Fiber? { NeverStale(s, t, e); }
    var x1 := x.(owed := [], pc := if x.pc.Deliver? then Release(x.pc.res) else Return(x.pc.res));
    QueuesGoto(s, t, x1);
    QueuesPost(SetTask(s, t, x1), e);
  }

  lemma QueuesRelease(s: State, t: nat)
    requires Queues(s) && CanStep(s, t) && (s.tasks[t].pc.Release? || s.tasks[t].pc.ParkRelease?)
    ensures Queues(Step(s, t))
  {
    if s.tasks[t].held != [] { QueuesUnlock(s, t, s.tasks[t].pc); } else { QueuesGoto(s, t, Step(s, t).tasks[t]); }
  }

  lemma QueuesReturn(s: State, t: nat)
    requires Queues(s) && CanStep(s, t) && (s.tasks[t].pc.Return? || s.tasks[t].pc.Yield? || s.tasks[t].pc.Switched?)
    ensures Queues(Step(s, t))
  {
    var r := Step(s, t);
    QueuesGoto(s, t, r.tasks[t]);
    QueuesSame(SetTask(s, t, r.tasks[t]), r);
  }

  lemma QueuesFinish(s: State, t: nat, x: Task, e: nat)
    requires Queues(s) && t < |s.tasks| && Parked(s.tasks[t].pc) && FinishOk(s, x.first, e)
    ensures Queues(Finish(s, t, x, e))
  {
    var r := Finish(s, t, x, e); var s1 := SetTask(s, t, r.tasks[t]);
    QueuesGoto(s, t, r.tasks[t]);
    QueuesEntry(s1, e, r.entries[e]);
    QueuesSame(SetEntry(s1, e, r.entries[e]), r);
  }

  lemma QueuesResume(s: State, t: nat)
    requires Queues(s) && ResumeOk(s, t) && (s.tasks[t].pc.Resumed? || s.tasks[t].pc.Wait?)
    ensures Queues(StepResume(s, t))
  {
    var x := s.tasks[t]; var y := if x.pc.Resumed? then x.(parked := 0) else x.(sem := x.sem - 1);
    if x.call.how.Select? { QueuesGoto(s, t, y.(pc := Settle(0, None))); } else { QueuesFinish(s, t, y, x.first); }
  }

  lemma QueuesSettle(s: State, t: nat)
    requires Queues(s) && SettleOk(s, t) && s.tasks[t].pc.Settle?
    ensures Queues(StepSettle(s, t))
  {
    var x := s.tasks[t]; var j := x.pc.j; var w := x.pc.winner; var r := StepSettle(s, t);
    if j < |x.call.arms| {
      QueuesGoto(s, t, r.tasks[t]);
      if !s.entries[x.first + j].woken { QueuesEntry(SetTask(s, t, r.tasks[t]), x.first + j, r.entries[x.first + j]); }
    } else if w.None? { QueuesGoto(s, t, r.tasks[t]); }
    else { QueuesFinish(s, t, x, x.first + w.value); }
  }

  lemma QueuesCloseFire(s: State, t: nat)
    requires Shape(s) && Claims(s) && Queues(s) && CloseWalkOk(s, t) && s.tasks[t].pc.CloseFire?
    ensures Queues(StepCloseFire(s, t))
  {
    var x := s.tasks[t]; var e := CloseTarget(s.chans[x.pc.c]).value; var r := StepCloseFire(s, t);
    if FiredOver(s, e) { QueuesCloseNext(s, t, r.tasks[t]); }
    else {
      assert TaskShape(s, t);
      HeadWaits(s, t, x.pc.c, e);
      FewerFired(s, t, e);
      QueuesFewer(s, MarkFired(s, t, e));
      QueuesCloseGoto(MarkFired(s, t, e), t, r.tasks[t]);
    }
  }

  lemma QueuesCloseWake(s: State, t: nat)
    requires Shape(s) && Claims(s) && Queues(s) && CloseWalkOk(s, t) && s.tasks[t].pc.CloseWake?
    ensures Queues(StepCloseWake(s, t))
  {
    var c := s.tasks[t].pc.c; var e := CloseTarget(s.chans[c]).value; var r := StepCloseWake(s, t);
    assert TaskClaim(s, t) && TaskShape(s, t) && EntryClaim(s, e);
    QueuesCloseNext(s, t, r.tasks[t]);
    QueuesEntry(SetChan(SetTask(s, t, r.tasks[t]), c, CloseDrop(s.chans[c])), e, r.entries[e]);
  }

  lemma QueuesCloseSignal(s: State, t: nat)
    requires Queues(s) && CloseSignalOk(s, t) && s.tasks[t].pc.CloseSignal?
    ensures Queues(StepCloseSignal(s, t))
  {
    var x := s.tasks[t]; var n := |x.owed| - 1; var y := x.(owed := x.owed[..n], pc := CloseWalk(x.pc.c));
    QueuesCloseGoto(s, t, y);
    QueuesPost(SetTask(s, t, y), x.owed[n]);
  }

  lemma QueuesClosePost(s: State, t: nat)
    requires Queues(s) && ClosePostOk(s, t) && s.tasks[t].pc.ClosePost?
    ensures Queues(StepClosePost(s, t))
  {
    var x := s.tasks[t];
    if x.owed == [] { QueuesCloseGoto(s, t, StepClosePost(s, t).tasks[t]); }
    else {
      var y := x.(owed := x.owed[1..]);
      QueuesCloseGoto(s, t, y);
      if Ready(s, x.owed[0]) { QueuesPost(SetTask(s, t, y), x.owed[0]); }
    }
  }

  // -------------------------------------------------------------------- dispatch

  lemma QueuesCloseStep(s: State, t: nat)
    requires Shape(s) && Claims(s) && Queues(s) && CanStep(s, t) && Closes(s.tasks[t].pc)
    ensures Queues(Step(s, t))
  {
    match s.tasks[t].pc {
      case CloseCas(_) => QueuesCloseCas(s, t);
      case CloseCas2(_) => QueuesCloseCas(s, t);
      case CloseLock(_) => QueuesCloseLock(s, t);
      case CloseWalk(_) => QueuesCloseWalk(s, t);
      case CloseFire(_) => QueuesCloseFire(s, t);
      case CloseWake(_, _) => QueuesCloseWake(s, t);
      case CloseSignal(_) => QueuesCloseSignal(s, t);
      case ClosePost(_) => QueuesClosePost(s, t);
      case CloseRun(_) => QueuesCloseRun(s, t);
      case _ =>
    }
  }

  lemma QueuesWalkStep(s: State, t: nat)
    requires Shape(s) && Claims(s) && Queues(s) && CanStep(s, t) && Walks(s.tasks[t].pc)
    ensures Queues(Step(s, t))
  {
    match s.tasks[t].pc {
      case Scan(_) => QueuesScan(s, t);
      case Acquire => QueuesScan(s, t);
      case Attempt(_, _) => QueuesAttempt(s, t);
      case Walk(_, _) => QueuesWalk(s, t);
      case Look(_, _) => QueuesLook(s, t);
      case Fire(_, _) => QueuesFire(s, t);
      case Wake(_, _, _) => QueuesWake(s, t);
      case _ =>
    }
  }

  lemma QueuesRestStep(s: State, t: nat)
    requires Shape(s) && Claims(s) && Queues(s) && CanStep(s, t) && !Walks(s.tasks[t].pc) && !Closes(s.tasks[t].pc)
    ensures Queues(Step(s, t))
  {
    match s.tasks[t].pc {
      case Deliver(_, _, _) => QueuesDeliver(s, t);
      case PostOut(_) => QueuesDeliver(s, t);
      case Release(_) => QueuesRelease(s, t);
      case Return(_) => QueuesReturn(s, t);
      case ParkRelease => QueuesRelease(s, t);
      case Yield => QueuesReturn(s, t);
      case Switched => QueuesReturn(s, t);
      case Resumed => QueuesResume(s, t);
      case Wait => QueuesResume(s, t);
      case Settle(_, _) => QueuesSettle(s, t);
      case _ =>
    }
  }

  lemma QueuesStep(s: State, t: nat)
    requires Shape(s) && Claims(s) && Queues(s) && CanStep(s, t)
    ensures Queues(Step(s, t))
  {
    if Walks(s.tasks[t].pc) { QueuesWalkStep(s, t); }
    else if Closes(s.tasks[t].pc) { QueuesCloseStep(s, t); }
    else { QueuesRestStep(s, t); }
  }

  lemma QueuesCloseCall(s: State, a: Action)
    requires Queues(s) && Enabled(s, a) && (a.CloseCall? || a.CloseDirect? || a.LoopDispatch?)
    ensures Queues(Next(s, a))
  {
    var r := Next(s, a); var t := a.t; var s1 := SetTask(s, t, r.tasks[t]);
    QueuesGoto(s, t, r.tasks[t]);
    if a.CloseCall? && s.chans[a.c].guard.Open? {
      assert ChanQueue(s1, a.c);
      QueuesSoft(s1, a.c, r.chans[a.c]);
      QueuesSame(SetChan(s1, a.c, r.chans[a.c]), r);
    } else {
      assert r.tasks == s1.tasks;
      QueuesSame(s1, r);
    }
  }

  lemma QueuesPop(s: State, t: nat)
    requires Claims(s) && Queues(s) && t < |s.tasks| && s.tasks[t].queued > 0
    ensures Queues(Pop(s, t))
  {
    assert TaskClaim(s, t);
    QueuesGoto(s, t, Pop(s, t).tasks[t]);
  }

  lemma QueuesInstall(s: State, c: nat)
    requires Queues(s) && c < |s.chans|
    ensures Queues(SetOnClose(s, c))
  {
    assert ChanQueue(s, c);
    CallbackOffered(s.chans[c]);
    QueuesSoft(s, c, SetOnClose(s, c).chans[c]);
  }

  /** Compaction removes cancelled entries only, and those are closed to claims. */
  lemma QueuesCompact(s: State, t: nat, c: nat)
    requires Shape(s) && Claims(s) && Queues(s) && Enabled(s, Sweep(t, c))
    ensures Queues(Compact(s, c))
  {
    var x := s.chans[c]; var y := Compact(s, c).chans[c];
    assert ChanShape(s, c) && ChanQueue(s, c) && TaskQueue(s, t);
    KeptOk(s, x.takers, c, false);
    KeptOk(s, x.putters, c, true);
    forall e | 0 <= e < |s.entries| && s.entries[e].ch == c
        && Unclaimed(s.fired, s.entries[e]) ensures e in Queue(y, s.entries[e].put) {
      assert StillQueued(s.chans, s.fired, s.entries[e], e) && EntryClaim(s, e);
    }
    CompactChan(s, c);
    QueuesChan(s, t, c, y);
  }

  lemma CompactChan(s: State, c: nat)
    requires Shape(s) && Queues(s) && c < |s.chans|
    ensures ChanQueue(Compact(s, c), c)
  {
    var x := s.chans[c]; var y := Compact(s, c).chans[c];
    assert ChanShape(s, c) && ChanQueue(s, c);
    KeptOk(s, x.takers, c, false);
    KeptOk(s, x.putters, c, true);
    forall i | 0 <= i < |y.takers| ensures y.takers[i] in x.takers { assert y.takers[i] in y.takers; }
    forall j | 0 <= j < |y.putters| ensures y.putters[j] in x.putters { assert y.putters[j] in y.putters; }
  }

  lemma QueuesNext(s: State, a: Action)
    requires Shape(s) && Claims(s) && Queues(s) && Enabled(s, a)
    ensures Queues(Next(s, a))
  {
    match a {
      case Invoke(t, how, arms, order) =>
        QueuesGoto(s, t, Next(s, a).tasks[t]);
        QueuesSame(SetTask(s, t, Next(s, a).tasks[t]), Next(s, a));
      case Advance(t) => QueuesStep(s, t);
      case Resume(t) => QueuesPop(s, t);
      case CloseCall(_, _, _) => QueuesCloseCall(s, a);
      case CloseDirect(_, _) => QueuesCloseCall(s, a);
      case LoopDispatch(_) => QueuesCloseCall(s, a);
      case Install(c) => QueuesInstall(s, c);
      case Sweep(t, c) => QueuesCompact(s, t, c);
    }
  }
}
