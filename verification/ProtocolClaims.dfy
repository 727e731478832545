/**
 Second layer of the protocol's invariant: who may claim a parked entry, and how the
 claim turns into exactly one wake-up of the entry's owner.
 */
module ProtocolClaims {
  import opened Common
  import opened Protocol
  import opened ProtocolShape

  /** Parked and not resumed yet. */
  predicate Asleep(pc: PC) { pc.ParkRelease? || pc.Yield? || pc.Switched? || pc.Suspended? || pc.Wait? }

  predicate Waking(pc: PC, e: nat) { (pc.Wake? && pc.e == e) || (pc.CloseWake? && pc.e == e) }

  predicate InPark(x: Task, e: nat) { Parked(x.pc) && x.first <= e < x.first + |x.call.arms| }

  /** e belongs to no select, or it is the arm that set its select's flag. */
  predicate FiredBy(fired: seq<Option<nat>>, y: Entry, e: nat) {
    y.sel.Some? ==> y.sel.value < |fired| && fired[y.sel.value] == Some(e)
  }

  /** Some arm set the flag of this entry's select. */
  predicate FlagSet(fired: seq<Option<nat>>, y: Entry) {
    y.sel.Some? && y.sel.value < |fired| && fired[y.sel.value].Some?
  }

  predicate StageOk(tasks: seq<Task>, fired: seq<Option<nat>>, y: Entry, e: nat)
    requires y.owner < |tasks|
  {
    match y.stage {
      case Waiting =>
        && !y.woken && !y.ok && y.slot.None?
        && (y.sel.Some? ==> y.sel.value < |fired| && fired[y.sel.value] != Some(e))
        && (y.cancelled ==> FlagSet(fired, y))
        && (InPark(tasks[y.owner], e) || FlagSet(fired, y))
      case Firing(w) =>
        && !y.woken && !y.ok && !y.cancelled && y.slot.None?
        && FiredBy(fired, y, e) && w < |tasks| && Waking(tasks[w].pc, e)
        && InPark(tasks[y.owner], e) && Asleep(tasks[y.owner].pc)
      case Owed(w) =>
        && y.woken && !y.cancelled
        && FiredBy(fired, y, e) && w < |tasks| && e in tasks[w].owed
        && InPark(tasks[y.owner], e) && Asleep(tasks[y.owner].pc)
      case Posted => y.woken && !y.cancelled && FiredBy(fired, y, e) && InPark(tasks[y.owner], e)
      case Settled => y.woken && !y.cancelled && FiredBy(fired, y, e) && !InPark(tasks[y.owner], e)
    }
  }

  ghost predicate EntryClaim(s: State, e: nat)
    requires e < |s.entries|
  {
    s.entries[e].gen == 1 && s.entries[e].owner < |s.tasks| && StageOk(s.tasks, s.fired, s.entries[e], e)
  }

  // --------------------------------------------------------------- the parked task

  /** The entry of arm j of the park whose entries start at first. */
  predicate ArmEntry(entries: seq<Entry>, t: nat, call: Call, first: nat, sel: nat, j: nat)
    requires j < |call.arms| && first + |call.arms| <= |entries|
  {
    var y := entries[first + j];
    && y.owner == t && y.ch == call.arms[j].ch && y.put == call.arms[j].put && y.msg == call.base + j
    && y.sel == if call.how.Select? then Some(sel) else None
  }

  ghost predicate WindowOk(entries: seq<Entry>, t: nat, call: Call, first: nat, sel: nat) {
    && first + |call.arms| <= |entries|
    && (forall j :: 0 <= j < |call.arms| ==> ArmEntry(entries, t, call, first, sel, j))
    && (call.how.Select? ==>
          forall e :: 0 <= e < |entries| && entries[e].sel == Some(sel) ==> first <= e < first + |call.arms|)
  }

  /** The only entry of the park that can have been claimed. */
  function Candidate(fired: seq<Option<nat>>, x: Task): Option<nat> {
    if x.call.how.Select? then (if x.sel < |fired| then fired[x.sel] else None) else Some(x.first)
  }

  predicate IsPosted(entries: seq<Entry>, e: Option<nat>) {
    e.Some? && e.value < |entries| && entries[e.value].stage.Posted?
  }

  /** One wake-up token per park: on its way while asleep, consumed once awake. */
  predicate TokenOk(entries: seq<Entry>, fired: seq<Option<nat>>, x: Task) {
    if Asleep(x.pc) then
      && x.queued + x.sem == (if IsPosted(entries, Candidate(fired, x)) then 1 else 0)
      && (x.queued > 0 ==> x.pc.Suspended?)
      && (x.sem > 0 ==> !x.kind.Fiber?)
      && (x.call.how.Select? ==> x.sel < |fired|)
    else
      && x.queued == x.sem == 0
      && (Parked(x.pc) ==> IsPosted(entries, Candidate(fired, x)))
  }

  /** The parked word, and which program counters a kind of task can be at. */
  predicate WordOk(x: Task) {
    && x.parked == (if !x.kind.Fiber? then 0
                    else if x.pc.ParkRelease? || x.pc.Yield? || x.pc.Switched? then 3
                    else if x.pc.Suspended? || x.pc.Resumed? then 4
                    else 0)
    && (x.pc.Yield? || x.pc.Switched? || x.pc.Suspended? || x.pc.Resumed? ==> x.kind.Fiber?)
    && (x.pc.Wait? ==> !x.kind.Fiber?)
    && (x.pc.Settle? ==> x.call.how.Select?)
    && !x.pc.Abort?
  }

  /** Phase 7 has met the winner exactly if it has passed it. */
  predicate Phase7Ok(fired: seq<Option<nat>>, x: Task) {
    x.pc.Settle? ==>
      var w := Candidate(fired, x);
      && x.pc.j <= |x.call.arms|
      && w.Some? && x.first <= w.value < x.first + |x.call.arms|
      && x.pc.winner == (if w.value < x.first + x.pc.j then Some(w.value - x.first) else None)
  }

  // --------------------------------------------------------------- the claiming task

  predicate OwesEntry(tasks: seq<Task>, entries: seq<Entry>, t: nat, e: nat, fiber: bool) {
    && e < |entries| && entries[e].stage == Owed(t)
    && entries[e].owner < |tasks| && tasks[entries[e].owner].kind.Fiber? == fiber
  }

  predicate CloseOwes(pc: PC) { pc.CloseWalk? || pc.CloseFire? || pc.CloseWake? || pc.ClosePost? }

  ghost predicate OwedOk(tasks: seq<Task>, entries: seq<Entry>, t: nat, x: Task) {
    && NoDup(x.owed)
    && (forall i :: 0 <= i < |x.owed| ==>
          OwesEntry(tasks, entries, t, x.owed[i], true) ||
          ((x.pc.Deliver? || (x.pc.CloseSignal? && i == |x.owed| - 1))
              && OwesEntry(tasks, entries, t, x.owed[i], false)))
    && (x.pc.Deliver? || x.pc.PostOut? ==> |x.owed| == 1)
    && (x.pc.Release? ==> |x.owed| <= 1)
    && (x.pc.CloseSignal? ==> x.owed != [] && OwesEntry(tasks, entries, t, x.owed[|x.owed| - 1], false))
    && (!(x.pc.Deliver? || x.pc.PostOut? || x.pc.Release? || x.pc.CloseSignal? || CloseOwes(x.pc)) ==> x.owed == [])
  }

  predicate WakingOk(entries: seq<Entry>, t: nat, x: Task) {
    x.pc.Wake? || x.pc.CloseWake? ==> x.pc.e < |entries| && entries[x.pc.e].stage == Firing(t)
  }

  ghost predicate TaskClaim(s: State, t: nat)
    requires t < |s.tasks|
  {
    var x := s.tasks[t];
    && (Parked(x.pc) ==> WindowOk(s.entries, t, x.call, x.first, x.sel))
    && TokenOk(s.entries, s.fired, x)
    && WordOk(x)
    && Phase7Ok(s.fired, x)
    && OwedOk(s.tasks, s.entries, t, x)
    && WakingOk(s.entries, t, x)
  }

  // ------------------------------------------------------------ lists and flags

  /** A queued entry is unclaimed, or being claimed by the holder of the lock. */
  predicate QueuedOk(entries: seq<Entry>, lock: Option<nat>, e: nat) {
    && e < |entries|
    && (entries[e].stage.Waiting? || (entries[e].stage.Firing? && lock == Some(entries[e].stage.who)))
  }

  ghost predicate ListClaim(entries: seq<Entry>, lock: Option<nat>, list: seq<nat>) {
    forall i :: 0 <= i < |list| ==> QueuedOk(entries, lock, list[i])
  }

  ghost predicate ChanClaim(s: State, c: nat)
    requires c < |s.chans|
  {
    ListClaim(s.entries, s.chans[c].lock, s.chans[c].takers)
        && ListClaim(s.entries, s.chans[c].lock, s.chans[c].putters)
  }

  predicate FlagClaim(entries: seq<Entry>, fired: seq<Option<nat>>, f: nat)
    requires f < |fired|
  {
    fired[f].Some? ==>
      var e := fired[f].value;
      e < |entries| && entries[e].sel == Some(f) && !entries[e].stage.Waiting?
  }

  ghost predicate Claims(s: State) {
    && (forall e :: 0 <= e < |s.entries| ==> EntryClaim(s, e))
    && (forall t :: 0 <= t < |s.tasks| ==> TaskClaim(s, t))
    && (forall c :: 0 <= c < |s.chans| ==> ChanClaim(s, c))
    && (forall f :: 0 <= f < |s.fired| ==> FlagClaim(s.entries, s.fired, f))
  }

  lemma ClaimsInit(s: State)
    requires Init(s)
    ensures Claims(s)
  {
  }

  // ------------------------------------------------------------ elementary updates

  lemma ClaimsChan(s: State, c: nat, x: Chan)
    requires Claims(s) && c < |s.chans| && ListClaim(s.entries, x.lock, x.takers)
             && ListClaim(s.entries, x.lock, x.putters)
    ensures Claims(SetChan(s, c, x))
  {
    var r := SetChan(s, c, x);
    forall e | 0 <= e < |r.entries| ensures EntryClaim(r, e) { assert EntryClaim(s, e); }
    forall t | 0 <= t < |r.tasks| ensures TaskClaim(r, t) { assert TaskClaim(s, t); }
    forall d | 0 <= d < |r.chans| ensures ChanClaim(r, d) { if d != c { assert ChanClaim(s, d); } }
  }

  lemma ClaimsSame(s: State, r: State)
    requires Claims(s) && r.tasks == s.tasks && r.entries == s.entries && r.fired == s.fired && r.chans == s.chans
    ensures Claims(r)
  {
    forall e | 0 <= e < |r.entries| ensures EntryClaim(r, e) { assert EntryClaim(s, e); }
    forall t | 0 <= t < |r.tasks| ensures TaskClaim(r, t) { assert TaskClaim(s, t); }
    forall d | 0 <= d < |r.chans| ensures ChanClaim(r, d) { assert ChanClaim(s, d); }
  }

  /** The change of a task that no entry's stage depends on. */
  predicate Inert(x: Task, y: Task) {
    && y.kind == x.kind && y.owed == x.owed
    && !x.pc.Wake? && !x.pc.CloseWake? && !y.pc.Wake? && !y.pc.CloseWake?
    && Parked(x.pc) == Parked(y.pc)
    && (Parked(x.pc) ==> Asleep(x.pc) == Asleep(y.pc) && x.call == y.call && x.first == y.first && x.sel == y.sel)
  }

  lemma InertStage(tasks: seq<Task>, fired: seq<Option<nat>>, y: Entry, e: nat, t: nat, x: Task)
    requires t < |tasks| && y.owner < |tasks| && StageOk(tasks, fired, y, e) && Inert(tasks[t], x)
    ensures StageOk(tasks[t := x], fired, y, e)
  { }

  lemma OwedKinds(tasks: seq<Task>, rasks: seq<Task>, entries: seq<Entry>, t: nat, x: Task)
    requires OwedOk(tasks, entries, t, x)
    requires |rasks| == |tasks| && forall u :: 0 <= u < |tasks| ==> rasks[u].kind == tasks[u].kind
    ensures OwedOk(rasks, entries, t, x)
  { }

  lemma ClaimsTask(s: State, t: nat, x: Task)
    requires Claims(s) && t < |s.tasks| && Inert(s.tasks[t], x)
    requires TaskClaim(SetTask(s, t, x), t)
    ensures Claims(SetTask(s, t, x))
  {
    var r := SetTask(s, t, x);
    forall e | 0 <= e < |r.entries| ensures EntryClaim(r, e) {
      assert EntryClaim(s, e);
      InertStage(s.tasks, s.fired, s.entries[e], e, t, x);
    }
    forall u | 0 <= u < |r.tasks| ensures TaskClaim(r, u) {
      if u != t { assert TaskClaim(s, u); OwedKinds(s.tasks, r.tasks, s.entries, u, s.tasks[u]); }
    }
    forall d | 0 <= d < |r.chans| ensures ChanClaim(r, d) { assert ChanClaim(s, d); }
  }

  /** Program counters of a task that is not parked and owes nothing. */
  predicate Quiet(pc: PC) {
    !Parked(pc) && !pc.Wake? && !pc.CloseWake? && !pc.Deliver? && !pc.PostOut? && !pc.CloseSignal? && !pc.Abort?
  }

  lemma ClaimsGoto(s: State, t: nat, x: Task)
    requires Claims(s) && t < |s.tasks| && Quiet(s.tasks[t].pc) && s.tasks[t].owed == [] && Quiet(x.pc)
    requires x == s.tasks[t].(pc := x.pc, held := x.held, call := x.call)
    ensures Claims(SetTask(s, t, x))
  {
    assert TaskClaim(s, t);
    ClaimsTask(s, t, x);
  }

  /** A close moves on with what it owes. */
  lemma ClaimsCloseGoto(s: State, t: nat, x: Task)
    requires Claims(s) && t < |s.tasks| && CloseOwes(s.tasks[t].pc) && CloseOwes(x.pc)
    requires !s.tasks[t].pc.CloseWake? && !x.pc.CloseWake?
    requires x == s.tasks[t].(pc := x.pc, held := x.held)
    ensures Claims(SetTask(s, t, x))
  {
    assert TaskClaim(s, t);
    OwedKinds(s.tasks, s.tasks[t := x], s.entries, t, s.tasks[t]);
    ClaimsTask(s, t, x);
  }

  /** Unlinking and unlocking shrink what the list invariant is about. */
  lemma ListShorter(entries: seq<Entry>, lock: Option<nat>, list: seq<nat>, i: nat)
    requires ListClaim(entries, lock, list) && i <= |list|
    ensures ListClaim(entries, lock, list[i..])
  { }

  /** The lock of c can change hands when its holder is not claiming. */
  lemma ListRelocked(s: State, list: seq<nat>, lock: Option<nat>, lock': Option<nat>)
    requires Claims(s) && ListClaim(s.entries, lock, list)
    requires lock.Some? ==>
               lock.value < |s.tasks| && !s.tasks[lock.value].pc.Wake? && !s.tasks[lock.value].pc.CloseWake?
    ensures ListClaim(s.entries, lock', list)
  {
    forall i | 0 <= i < |list| ensures QueuedOk(s.entries, lock', list[i]) {
      assert QueuedOk(s.entries, lock, list[i]);
      assert EntryClaim(s, list[i]);
    }
  }

  // ------------------------------------------------------------------ claiming

  /** An unclaimed entry whose flag is clear belongs to a task that is still asleep. */
  lemma LiveAsleep(s: State, e: nat)
    requires Shape(s) && Claims(s) && e < |s.entries|
    requires s.entries[e].stage.Waiting? && !FlagSet(s.fired, s.entries[e])
    ensures var o := s.entries[e].owner; o < |s.tasks| && InPark(s.tasks[o], e) && Asleep(s.tasks[o].pc)
    ensures !s.entries[e].cancelled
  {
    var y := s.entries[e]; var o := y.owner;
    assert EntryClaim(s, e) && TaskClaim(s, o) && TaskShape(s, o);
    var x := s.tasks[o];
    assert ArmEntry(s.entries, o, x.call, x.first, x.sel, e - x.first);
  }

  /** e's stage changes and nothing that a window mentions does. */
  lemma WindowKept(entries: seq<Entry>, e: nat, y: Entry, t: nat, x: Task)
    requires WindowOk(entries, t, x.call, x.first, x.sel) && e < |entries| && SameEntry(entries[e], y)
    ensures WindowOk(entries[e := y], t, x.call, x.first, x.sel)
  {
    var es := entries[e := y];
    forall j | 0 <= j < |x.call.arms| ensures ArmEntry(es, t, x.call, x.first, x.sel, j) {
      assert ArmEntry(entries, t, x.call, x.first, x.sel, j);
    }
  }

  /** A stage change of an entry that t does not owe leaves what t owes alone. */
  lemma OwedKept(tasks: seq<Task>, entries: seq<Entry>, e: nat, y: Entry, t: nat, x: Task)
    requires OwedOk(tasks, entries, t, x) && e < |entries| && SameEntry(entries[e], y) && entries[e].stage != Owed(t)
    ensures OwedOk(tasks, entries[e := y], t, x)
  { }

  ghost predicate CanFire(s: State, t: nat, e: nat) {
    && t < |s.tasks| && e < |s.entries| && EntryOk(s, e)
    && s.entries[e].stage.Waiting? && !s.entries[e].cancelled && !FiredOver(s, e)
    && s.entries[e].ch < |s.chans| && s.chans[s.entries[e].ch].lock == Some(t)
    && !s.tasks[t].pc.Wake? && !s.tasks[t].pc.CloseWake? && !Parked(s.tasks[t].pc)
  }

  ghost predicate FiringTask(x: Task, y: Task, e: nat) {
    && y == x.(pc := y.pc)
    && ((y.pc.Wake? && y.pc.e == e && x.owed == []) ||
        (y.pc.CloseWake? && y.pc.e == e && CloseOwes(x.pc)))
  }

  lemma FireEntry(s: State, t: nat, e: nat, x: Task, d: nat)
    requires Shape(s) && Claims(s) && CanFire(s, t, e) && FiringTask(s.tasks[t], x, e) && d < |s.entries|
    ensures EntryClaim(SetTask(MarkFired(s, t, e), t, x), d)
  {
    assert EntryClaim(s, d) && EntryClaim(s, e);
    if d == e { LiveAsleep(s, e); }
  }

  /** Setting a clear flag for an unposted entry moves no token. */
  lemma FireToken(entries: seq<Entry>, fired: seq<Option<nat>>, e: nat, y: Entry, x: Task)
    requires TokenOk(entries, fired, x) && Phase7Ok(fired, x)
    requires e < |entries| && entries[e].stage.Waiting? && y.stage.Firing? && SameEntry(entries[e], y)
    requires y.sel.Some? ==> y.sel.value < |fired| && fired[y.sel.value].None?
    ensures var fired' := if y.sel.Some? then fired[y.sel.value := Some(e)] else fired;
            TokenOk(entries[e := y], fired', x) && Phase7Ok(fired', x)
  { }

  lemma FireOther(s: State, t: nat, e: nat, x: Task, u: nat)
    requires Claims(s) && CanFire(s, t, e) && FiringTask(s.tasks[t], x, e) && u < |s.tasks| && u != t
    ensures TaskClaim(SetTask(MarkFired(s, t, e), t, x), u)
  {
    var r := SetTask(MarkFired(s, t, e), t, x);
    var y := r.entries[e];
    assert TaskClaim(s, u);
    FireToken(s.entries, s.fired, e, y, s.tasks[u]);
    if Parked(s.tasks[u].pc) { WindowKept(s.entries, e, y, u, s.tasks[u]); }
    OwedKept(s.tasks, s.entries, e, y, u, s.tasks[u]);
    OwedKinds(s.tasks, r.tasks, r.entries, u, s.tasks[u]);
  }

  lemma FireSelf(s: State, t: nat, e: nat, x: Task)
    requires Claims(s) && CanFire(s, t, e) && FiringTask(s.tasks[t], x, e)
    ensures TaskClaim(SetTask(MarkFired(s, t, e), t, x), t)
  {
    var r := SetTask(MarkFired(s, t, e), t, x);
    var y := r.entries[e];
    assert TaskClaim(s, t);
    OwedKept(s.tasks, s.entries, e, y, t, s.tasks[t]);
    OwedKinds(s.tasks, r.tasks, r.entries, t, s.tasks[t]);
  }

  lemma FireChan(s: State, t: nat, e: nat, x: Task, c: nat)
    requires Shape(s) && Claims(s) && CanFire(s, t, e) && c < |s.chans|
    ensures ChanClaim(SetTask(MarkFired(s, t, e), t, x), c)
  {
    var r := MarkFired(s, t, e);
    assert ChanClaim(s, c) && ChanShape(s, c);
    forall i | 0 <= i < |s.chans[c].takers| ensures QueuedOk(r.entries, s.chans[c].lock, s.chans[c].takers[i]) {
      assert QueuedOk(s.entries, s.chans[c].lock, s.chans[c].takers[i])
             && Queueable(s.entries, s.chans[c].takers[i], c, false);
    }
    forall i | 0 <= i < |s.chans[c].putters| ensures QueuedOk(r.entries, s.chans[c].lock, s.chans[c].putters[i]) {
      assert QueuedOk(s.entries, s.chans[c].lock, s.chans[c].putters[i])
             && Queueable(s.entries, s.chans[c].putters[i], c, true);
    }
  }

  /** try_claim_wake, first CAS. */
  lemma ClaimsFire(s: State, t: nat, e: nat, x: Task)
    requires Shape(s) && Claims(s) && CanFire(s, t, e) && FiringTask(s.tasks[t], x, e)
    ensures Claims(SetTask(MarkFired(s, t, e), t, x))
  {
    var r := SetTask(MarkFired(s, t, e), t, x);
    forall d | 0 <= d < |r.entries| ensures EntryClaim(r, d) { FireEntry(s, t, e, x, d); }
    forall u | 0 <= u < |r.tasks| ensures TaskClaim(r, u) {
      if u == t { FireSelf(s, t, e, x); } else { FireOther(s, t, e, x, u); }
    }
    forall c | 0 <= c < |r.chans| ensures ChanClaim(r, c) { FireChan(s, t, e, x, c); }
    forall f | 0 <= f < |r.fired| ensures FlagClaim(r.entries, r.fired, f) { assert FlagClaim(s.entries, s.fired, f); }
  }

  // ------------------------------------------------------------------ winning

  ghost predicate CanWake(s: State, t: nat, e: nat) {
    && t < |s.tasks| && e < |s.entries| && Waking(s.tasks[t].pc, e)
    && (forall c :: 0 <= c < |s.chans| ==> e !in s.chans[c].takers && e !in s.chans[c].putters)
  }

  ghost predicate WakingTask(s: State, x: Task, y: Task, e: nat)
    requires EntryOk(s, e)
  {
    var fiber := s.tasks[s.entries[e].owner].kind.Fiber?;
    && y == x.(pc := y.pc, owed := y.owed) && y.owed == x.owed + [e]
    && (if x.pc.Wake? then y.pc.Deliver? || (y.pc.Release? && fiber)
        else if fiber then y.pc.CloseWalk? else y.pc.CloseSignal?)
  }

  predicate WakingEntry(y: Entry, z: Entry, t: nat) {
    z == y.(woken := true, stage := Owed(t), ok := z.ok, slot := z.slot)
  }

  function Woken(s: State, t: nat, x: Task, e: nat, z: Entry): State
    requires t < |s.tasks| && e < |s.entries|
  { SetEntry(SetTask(s, t, x), e, z) }

  lemma WakeOther(s: State, t: nat, e: nat, x: Task, z: Entry, u: nat)
    requires Claims(s) && CanWake(s, t, e) && EntryOk(s, e) && x.kind == s.tasks[t].kind
             && WakingEntry(s.entries[e], z, t)
    requires u < |s.tasks| && u != t
    ensures TaskClaim(Woken(s, t, x, e, z), u)
  {
    var r := Woken(s, t, x, e, z);
    assert TaskClaim(s, u) && TaskClaim(s, t);
    if Parked(s.tasks[u].pc) { WindowKept(s.entries, e, z, u, s.tasks[u]); }
    OwedKept(s.tasks, s.entries, e, z, u, s.tasks[u]);
    OwedKinds(s.tasks, r.tasks, r.entries, u, s.tasks[u]);
  }

  lemma WakeSelf(s: State, t: nat, e: nat, x: Task, z: Entry)
    requires Claims(s) && CanWake(s, t, e) && EntryOk(s, e) && WakingTask(s, s.tasks[t], x, e)
             && WakingEntry(s.entries[e], z, t)
    ensures TaskClaim(Woken(s, t, x, e, z), t)
  {
    var r := Woken(s, t, x, e, z);
    assert TaskClaim(s, t);
    OwedKept(s.tasks, s.entries, e, z, t, s.tasks[t]);
    OwedKinds(s.tasks, r.tasks, r.entries, t, s.tasks[t]);
    assert OwesEntry(r.tasks, r.entries, t, e, s.tasks[s.entries[e].owner].kind.Fiber?);
  }

  /** try_claim_wake, second CAS, on an entry that was unlinked. */
  lemma ClaimsWake(s: State, t: nat, e: nat, x: Task, z: Entry)
    requires Claims(s) && CanWake(s, t, e) && EntryOk(s, e) && WakingTask(s, s.tasks[t], x, e)
             && WakingEntry(s.entries[e], z, t)
    ensures Claims(Woken(s, t, x, e, z))
  {
    var r := Woken(s, t, x, e, z);
    assert TaskClaim(s, t);
    forall d | 0 <= d < |r.entries| ensures EntryClaim(r, d) { assert EntryClaim(s, d); }
    forall u | 0 <= u < |r.tasks| ensures TaskClaim(r, u) {
      if u == t { WakeSelf(s, t, e, x, z); } else { WakeOther(s, t, e, x, z, u); }
    }
    forall c | 0 <= c < |r.chans| ensures ChanClaim(r, c) { assert ChanClaim(s, c); }
    forall f | 0 <= f < |r.fired| ensures FlagClaim(r.entries, r.fired, f) { assert FlagClaim(s.entries, s.fired, f); }
  }

  // ------------------------------------------------------------------- posting

  /** A claimed entry of a park is the park's candidate. */
  lemma ClaimedIsCandidate(s: State, e: nat)
    requires Shape(s) && Claims(s) && e < |s.entries| && !s.entries[e].stage.Waiting?
    requires s.entries[e].owner < |s.tasks| && InPark(s.tasks[s.entries[e].owner], e)
    ensures Candidate(s.fired, s.tasks[s.entries[e].owner]) == Some(e)
  {
    var o := s.entries[e].owner; var x := s.tasks[o];
    assert EntryClaim(s, e) && TaskClaim(s, o) && TaskShape(s, o) && EntryShape(s, e);
    assert ArmEntry(s.entries, o, x.call, x.first, x.sel, e - x.first);
  }

  /** The candidate of a park is one of its entries. */
  lemma CandidateInPark(s: State, u: nat)
    requires Shape(s) && Claims(s) && u < |s.tasks| && Parked(s.tasks[u].pc) && Candidate(s.fired, s.tasks[u]).Some?
    ensures var e := Candidate(s.fired, s.tasks[u]).value;
            e < |s.entries| && s.entries[e].owner == u && InPark(s.tasks[u], e)
  {
    var x := s.tasks[u]; var e := Candidate(s.fired, x).value;
    assert TaskClaim(s, u) && TaskShape(s, u);
    if x.call.how.Select? { assert FlagClaim(s.entries, s.fired, x.sel); }
    assert ArmEntry(s.entries, u, x.call, x.first, x.sel, e - x.first);
  }

  ghost predicate CanPost(s: State, t: nat, e: nat) {
    && t < |s.tasks| && EntryOk(s, e) && s.entries[e].stage == Owed(t) && !Parked(s.tasks[t].pc)
    && !s.tasks[t].pc.Wake? && !s.tasks[t].pc.CloseWake?
    && (s.tasks[s.entries[e].owner].kind.Fiber? ==> Ready(s, e))
  }

  ghost predicate PostingTask(x: Task, y: Task, e: nat) {
    && y == x.(pc := y.pc, owed := y.owed) && !Parked(y.pc) && !y.pc.Wake? && !y.pc.CloseWake? && !y.pc.Abort?
    && (forall d :: d in x.owed && d != e ==> d in y.owed)
  }

  lemma PostEntry(s: State, t: nat, e: nat, x: Task, d: nat)
    requires Claims(s) && CanPost(s, t, e) && PostingTask(s.tasks[t], x, e) && d < |s.entries|
    ensures EntryClaim(Post(SetTask(s, t, x), e), d)
  { assert EntryClaim(s, d) && EntryClaim(s, e); }

  lemma PostOther(s: State, t: nat, e: nat, x: Task, u: nat)
    requires Claims(s) && CanPost(s, t, e) && x.kind == s.tasks[t].kind && u < |s.tasks| && u != t
             && u != s.entries[e].owner
    requires Parked(s.tasks[u].pc) ==> Candidate(s.fired, s.tasks[u]) != Some(e)
    ensures TaskClaim(Post(SetTask(s, t, x), e), u)
  {
    var r := Post(SetTask(s, t, x), e); var y := r.entries[e];
    assert TaskClaim(s, u);
    if Parked(s.tasks[u].pc) { WindowKept(s.entries, e, y, u, s.tasks[u]); }
    OwedKept(s.tasks, s.entries, e, y, u, s.tasks[u]);
    OwedKinds(s.tasks, r.tasks, r.entries, u, s.tasks[u]);
  }

  lemma PostOwner(s: State, t: nat, e: nat, x: Task)
    requires Shape(s) && Claims(s) && CanPost(s, t, e) && x.kind == s.tasks[t].kind && t != s.entries[e].owner
    ensures TaskClaim(Post(SetTask(s, t, x), e), s.entries[e].owner)
  {
    var r := Post(SetTask(s, t, x), e); var y := r.entries[e]; var u := y.owner;
    assert TaskClaim(s, u) && EntryClaim(s, e);
    ClaimedIsCandidate(s, e);
    WindowKept(s.entries, e, y, u, s.tasks[u]);
  }

  /** The owner of a claimed entry gets its token. */
  lemma ClaimsPost(s: State, t: nat, e: nat, x: Task)
    requires Shape(s) && Claims(s) && CanPost(s, t, e) && PostingTask(s.tasks[t], x, e)
    requires OwedOk(s.tasks, s.entries, t, x) && e !in x.owed
    ensures Claims(Post(SetTask(s, t, x), e))
  {
    var r := Post(SetTask(s, t, x), e);
    assert EntryClaim(s, e) && TaskClaim(s, t);
    assert s.entries[e].owner != t;
    forall d | 0 <= d < |r.entries| ensures EntryClaim(r, d) { PostEntry(s, t, e, x, d); }
    forall u | 0 <= u < |r.tasks| ensures TaskClaim(r, u) {
      if u == t { PostSelf(s, t, e, x); }
      else if u == s.entries[e].owner { PostOwner(s, t, e, x); }
      else {
        if Parked(s.tasks[u].pc) && Candidate(s.fired, s.tasks[u]).Some? { CandidateInPark(s, u); }
        PostOther(s, t, e, x, u);
      }
    }
    forall c | 0 <= c < |r.chans| ensures ChanClaim(r, c) { assert ChanClaim(s, c); }
    forall f | 0 <= f < |r.fired| ensures FlagClaim(r.entries, r.fired, f) { assert FlagClaim(s.entries, s.fired, f); }
  }

  lemma PostSelf(s: State, t: nat, e: nat, x: Task)
    requires Claims(s) && CanPost(s, t, e) && PostingTask(s.tasks[t], x, e) && s.entries[e].owner != t
    requires OwedOk(s.tasks, s.entries, t, x) && e !in x.owed
    ensures TaskClaim(Post(SetTask(s, t, x), e), t)
  {
    var r := Post(SetTask(s, t, x), e);
    assert TaskClaim(s, t);
    forall i | 0 <= i < |x.owed|
      ensures OwesEntry(s.tasks, s.entries, t, x.owed[i], true) ==> OwesEntry(r.tasks, r.entries, t, x.owed[i], true)
      ensures OwesEntry(s.tasks, s.entries, t, x.owed[i], false) ==> OwesEntry(r.tasks, r.entries, t, x.owed[i], false)
    { assert x.owed[i] != e; }
  }

  // -------------------------------------------------------------- suspend and resume

  /** A fiber suspends, and the worker bumps its parked word. */
  lemma ClaimsYield(s: State, t: nat)
    requires Claims(s) && t < |s.tasks| && (s.tasks[t].pc.Yield? || s.tasks[t].pc.Switched?)
    ensures Claims(Step(s, t))
  {
    var x := if s.tasks[t].pc.Yield? then s.tasks[t].(pc := Switched) else Bump(s, t).tasks[t];
    assert TaskClaim(s, t);
    ClaimsTask(s, t, x);
  }

  /** The last lock of a parking task is released, or it goes to sleep. */
  lemma ClaimsParkGoto(s: State, t: nat, x: Task)
    requires Claims(s) && t < |s.tasks| && s.tasks[t].pc.ParkRelease?
    requires x == s.tasks[t].(pc := x.pc, held := x.held)
    requires x.pc.ParkRelease? || (if x.kind.Fiber? then x.pc.Yield? else x.pc.Wait?)
    ensures Claims(SetTask(s, t, x))
  {
    assert TaskClaim(s, t);
    ClaimsTask(s, t, x);
  }

  /** A parked task with its token in hand wakes up; nobody else can hold a claim on it. */
  lemma AwakeStage(s: State, t: nat, x: Task, e: nat)
    requires Shape(s) && Claims(s) && t < |s.tasks| && Asleep(s.tasks[t].pc)
             && IsPosted(s.entries, Candidate(s.fired, s.tasks[t]))
    requires x == s.tasks[t].(pc := x.pc, parked := x.parked, queued := x.queued, sem := x.sem) && Parked(x.pc)
    requires e < |s.entries|
    ensures EntryClaim(SetTask(s, t, x), e)
  {
    var y := s.entries[e];
    assert EntryClaim(s, e) && TaskClaim(s, t);
    if y.owner == t && InPark(s.tasks[t], e) && !y.stage.Waiting? { ClaimedIsCandidate(s, e); }
  }

  lemma ClaimsAwake(s: State, t: nat, x: Task)
    requires Shape(s) && Claims(s) && t < |s.tasks| && Asleep(s.tasks[t].pc) && s.tasks[t].queued + s.tasks[t].sem > 0
    requires x == s.tasks[t].(pc := x.pc, parked := x.parked, queued := 0, sem := 0)
    requires (x.pc.Resumed? && x.kind.Fiber? && x.parked == 4) ||
             (x.pc.Settle? && x.parked == 0 && x.call.how.Select? && x.pc == Settle(0, None) && !x.kind.Fiber?)
    ensures Claims(SetTask(s, t, x))
  {
    var r := SetTask(s, t, x);
    assert TaskClaim(s, t);
    CandidateInPark(s, t);
    forall e | 0 <= e < |r.entries| ensures EntryClaim(r, e) { AwakeStage(s, t, x, e); }
    forall u | 0 <= u < |r.tasks| ensures TaskClaim(r, u) {
      assert TaskClaim(s, u);
      OwedKinds(s.tasks, r.tasks, s.entries, u, s.tasks[u]);
    }
    forall c | 0 <= c < |r.chans| ensures ChanClaim(r, c) { assert ChanClaim(s, c); }
  }

  // -------------------------------------------------------------------- Phase 7

  /** The task reads its result out of the candidate and leaves the park. */
  /** The losers of the park are waiting behind a set flag. */
  lemma FinishSibling(s: State, t: nat, e: nat, d: nat)
    requires Shape(s) && Claims(s) && t < |s.tasks| && Parked(s.tasks[t].pc) && d < |s.entries| && d != e
    requires Candidate(s.fired, s.tasks[t]) == Some(e) && IsPosted(s.entries, Some(e))
    requires s.entries[d].owner == t && InPark(s.tasks[t], d)
    ensures s.entries[d].stage.Waiting? && FlagSet(s.fired, s.entries[d])
  {
    var z := s.tasks[t];
    assert EntryClaim(s, d) && TaskClaim(s, t) && TaskShape(s, t);
    CandidateInPark(s, t);
    assert ArmEntry(s.entries, t, z.call, z.first, z.sel, d - z.first);
    if !s.entries[d].stage.Waiting? { ClaimedIsCandidate(s, d); }
  }

  lemma FinishEntry(s: State, t: nat, e: nat, x: Task, d: nat)
    requires Shape(s) && Claims(s) && t < |s.tasks| && Parked(s.tasks[t].pc)
    requires Candidate(s.fired, s.tasks[t]) == Some(e) && IsPosted(s.entries, Some(e))
    requires !Parked(x.pc) && !x.pc.Wake? && !x.pc.CloseWake? && x.owed == s.tasks[t].owed && d < |s.entries|
    ensures EntryClaim(SetEntry(SetTask(s, t, x), e, s.entries[e].(stage := Settled)), d)
  {
    assert EntryClaim(s, d);
    if d != e && s.entries[d].owner == t && InPark(s.tasks[t], d) { FinishSibling(s, t, e, d); }
    else if d == e { CandidateInPark(s, t); }
  }

  lemma FinishOther(s: State, t: nat, e: nat, x: Task, u: nat)
    requires Claims(s) && t < |s.tasks| && u < |s.tasks| && u != t && IsPosted(s.entries, Some(e))
             && x.kind == s.tasks[t].kind
    requires Parked(s.tasks[u].pc) ==> Candidate(s.fired, s.tasks[u]) != Some(e)
    ensures TaskClaim(SetEntry(SetTask(s, t, x), e, s.entries[e].(stage := Settled)), u)
  {
    var y := s.entries[e].(stage := Settled);
    assert TaskClaim(s, u);
    if Parked(s.tasks[u].pc) { WindowKept(s.entries, e, y, u, s.tasks[u]); }
    OwedKept(s.tasks, s.entries, e, y, u, s.tasks[u]);
    OwedKinds(s.tasks, s.tasks[t := x], s.entries[e := y], u, s.tasks[u]);
  }

  lemma ClaimsFinish(s: State, t: nat, e: nat, x: Task)
    requires Shape(s) && Claims(s) && t < |s.tasks| && Parked(s.tasks[t].pc)
    requires Candidate(s.fired, s.tasks[t]) == Some(e) && IsPosted(s.entries, Some(e))
    requires x == s.tasks[t].(pc := x.pc, parked := 0, queued := 0, sem := 0) && x.pc.Return?
    ensures Claims(SetEntry(SetTask(s, t, x), e, s.entries[e].(stage := Settled)))
  {
    var r := SetEntry(SetTask(s, t, x), e, s.entries[e].(stage := Settled));
    assert EntryClaim(s, e) && TaskClaim(s, t);
    CandidateInPark(s, t);
    forall d | 0 <= d < |r.entries| ensures EntryClaim(r, d) { FinishEntry(s, t, e, x, d); }
    forall u | 0 <= u < |r.tasks| ensures TaskClaim(r, u) {
      if u != t {
        if Parked(s.tasks[u].pc) && Candidate(s.fired, s.tasks[u]).Some? { CandidateInPark(s, u); }
        FinishOther(s, t, e, x, u);
      }
    }
    forall c | 0 <= c < |r.chans| ensures ChanClaim(r, c) { assert ChanClaim(s, c); }
    forall f | 0 <= f < |r.fired| ensures FlagClaim(r.entries, r.fired, f) { assert FlagClaim(s.entries, s.fired, f); }
  }

  /** Phase 7 marks a loser. */
  lemma ClaimsCancel(s: State, t: nat, e: nat)
    requires Claims(s) && e < |s.entries| && s.entries[e].stage.Waiting? && FlagSet(s.fired, s.entries[e])
    ensures Claims(SetEntry(s, e, s.entries[e].(cancelled := true)))
  {
    var y := s.entries[e].(cancelled := true); var r := SetEntry(s, e, y);
    forall d | 0 <= d < |r.entries| ensures EntryClaim(r, d) { assert EntryClaim(s, d); }
    forall u | 0 <= u < |r.tasks| ensures TaskClaim(r, u) {
      assert TaskClaim(s, u);
      if Parked(s.tasks[u].pc) { WindowKept(s.entries, e, y, u, s.tasks[u]); }
      OwedKept(s.tasks, s.entries, e, y, u, s.tasks[u]);
    }
    forall c | 0 <= c < |r.chans| ensures ChanClaim(r, c) { assert ChanClaim(s, c); }
    forall f | 0 <= f < |r.fired| ensures FlagClaim(r.entries, r.fired, f) { assert FlagClaim(s.entries, s.fired, f); }
  }

  lemma ClaimsFinished(s: State, t: nat, x: Task, e: nat)
    requires Shape(s) && Claims(s) && t < |s.tasks| && Parked(s.tasks[t].pc) && FinishOk(s, x.first, e)
    requires Candidate(s.fired, s.tasks[t]) == Some(e) && IsPosted(s.entries, Some(e))
    requires x == s.tasks[t].(parked := 0, queued := 0, sem := 0)
    ensures Claims(Finish(s, t, x, e))
  {
    var r := Finish(s, t, x, e);
    ClaimsFinish(s, t, e, r.tasks[t]);
    ClaimsSame(SetEntry(SetTask(s, t, r.tasks[t]), e, r.entries[e]), r);
  }

  /** One round of Phase 7: the candidate is the only entry seen as woken. */
  lemma ClaimsSettleTask(s: State, t: nat)
    requires Shape(s) && Claims(s) && t < |s.tasks| && s.tasks[t].pc.Settle? && s.tasks[t].pc.j < |s.tasks[t].call.arms|
    requires SettleOk(s, t)
    ensures Claims(SetTask(s, t, StepSettle(s, t).tasks[t]))
  {
    SettleSelf(s, t);
    ClaimsTask(s, t, StepSettle(s, t).tasks[t]);
  }

  /** Phase 7 finds the arm it looks at woken exactly if it is the winner. */
  lemma WokenIsWinner(s: State, t: nat)
    requires Shape(s) && Claims(s) && t < |s.tasks| && s.tasks[t].pc.Settle? && s.tasks[t].pc.j < |s.tasks[t].call.arms|
    requires SettleOk(s, t)
    ensures var e := s.tasks[t].first + s.tasks[t].pc.j;
            s.entries[e].woken <==> Candidate(s.fired, s.tasks[t]) == Some(e)
  {
    var x := s.tasks[t]; var j := x.pc.j; var e := x.first + j;
    assert TaskClaim(s, t);
    assert EntryClaim(s, e) && ArmEntry(s.entries, t, x.call, x.first, x.sel, j);
    if !s.entries[e].stage.Waiting? { ClaimedIsCandidate(s, e); }
  }

  lemma SettleSelf(s: State, t: nat)
    requires Shape(s) && Claims(s) && t < |s.tasks| && s.tasks[t].pc.Settle? && s.tasks[t].pc.j < |s.tasks[t].call.arms|
    requires SettleOk(s, t)
    ensures TaskClaim(SetTask(s, t, StepSettle(s, t).tasks[t]), t)
    ensures Inert(s.tasks[t], StepSettle(s, t).tasks[t])
  {
    assert TaskClaim(s, t);
    WokenIsWinner(s, t);
  }

  /** An arm of the park that was not woken is a loser. */
  lemma SettleLoser(s: State, t: nat)
    requires Shape(s) && Claims(s) && t < |s.tasks| && s.tasks[t].pc.Settle? && s.tasks[t].pc.j < |s.tasks[t].call.arms|
    requires SettleOk(s, t) && !s.entries[s.tasks[t].first + s.tasks[t].pc.j].woken
    ensures var y := s.entries[s.tasks[t].first + s.tasks[t].pc.j];
            y.stage.Waiting? && FlagSet(s.fired, y) && y.owner == t
  {
    var x := s.tasks[t]; var j := x.pc.j; var e := x.first + j;
    assert TaskClaim(s, t);
    assert EntryClaim(s, e) && ArmEntry(s.entries, t, x.call, x.first, x.sel, j);
  }

  lemma ClaimsSettleArm(s: State, t: nat)
    requires Shape(s) && Claims(s) && t < |s.tasks| && s.tasks[t].pc.Settle? && s.tasks[t].pc.j < |s.tasks[t].call.arms|
    requires SettleOk(s, t)
    ensures Claims(StepSettle(s, t))
  {
    var x := s.tasks[t]; var e := x.first + x.pc.j;
    ClaimsSettleTask(s, t);
    if !s.entries[e].woken {
      SettleLoser(s, t);
      ClaimsCancel(SetTask(s, t, StepSettle(s, t).tasks[t]), t, e);
    }
  }

  lemma ClaimsSettle(s: State, t: nat)
    requires Shape(s) && Claims(s) && SettleOk(s, t) && s.tasks[t].pc.Settle?
    ensures Claims(StepSettle(s, t))
  {
    var x := s.tasks[t];
    if x.pc.j < |x.call.arms| { ClaimsSettleArm(s, t); }
    else {
      assert TaskClaim(s, t);
      ClaimsFinished(s, t, x, x.first + x.pc.winner.value);
    }
  }

  lemma ClaimsResume(s: State, t: nat)
    requires Shape(s) && Claims(s) && ResumeOk(s, t) && (s.tasks[t].pc.Resumed? || s.tasks[t].pc.Wait?)
    ensures Claims(StepResume(s, t))
  {
    var x := s.tasks[t];
    var y := if x.pc.Resumed? then x.(parked := 0) else x.(sem := x.sem - 1);
    assert TaskClaim(s, t);
    if !x.call.how.Select? { ClaimsFinished(s, t, y, x.first); }
    else if x.pc.Resumed? { CandidateInPark(s, t); ClaimsTask(s, t, y.(pc := Settle(0, None))); }
    else { ClaimsAwake(s, t, y.(pc := Settle(0, None))); }
  }

  lemma ClaimsPop(s: State, t: nat)
    requires Shape(s) && Claims(s) && t < |s.tasks| && s.tasks[t].queued > 0
    ensures Claims(Pop(s, t))
  {
    assert TaskClaim(s, t);
    ClaimsAwake(s, t, Pop(s, t).tasks[t]);
  }

  // --------------------------------------------------------------------- parking

  lemma ParkOther(s: State, t: nat, u: nat)
    requires Shape(s) && Claims(s) && t < |s.tasks| && AtPark(s.tasks[t]) && u < |s.tasks| && u != t
    ensures TaskClaim(Park(s, t), u)
  {
    var r := Park(s, t); var x := s.tasks[u];
    assert TaskClaim(s, u);
    if Parked(x.pc) {
      forall j | 0 <= j < |x.call.arms| ensures ArmEntry(r.entries, u, x.call, x.first, x.sel, j) {
        assert ArmEntry(s.entries, u, x.call, x.first, x.sel, j);
      }
      if Candidate(s.fired, x).Some? { CandidateInPark(s, u); }
    }
    forall e | 0 <= e < |s.entries| ensures r.entries[e] == s.entries[e] { }
  }

  lemma ParkSelf(s: State, t: nat)
    requires Shape(s) && Claims(s) && t < |s.tasks| && AtPark(s.tasks[t])
    ensures TaskClaim(Park(s, t), t)
  {
    var r := Park(s, t); var x := r.tasks[t]; var n := |s.entries|;
    assert TaskClaim(s, t) && TaskShape(s, t);
    forall j | 0 <= j < |x.call.arms| ensures ArmEntry(r.entries, t, x.call, n, x.sel, j) {
      assert r.entries[n + j] == NewEntry(t, x.call, j, if x.call.how.Select? then Some(|s.fired|)
             else None, s.tasks[t].parked / 2 + 1);
    }
    forall e | 0 <= e < n ensures r.entries[e].sel != Some(x.sel) { assert EntryShape(s, e); }
    if !x.call.how.Select? { assert ArmEntry(r.entries, t, x.call, n, x.sel, 0); }
  }

  lemma ParkEntry(s: State, t: nat, e: nat)
    requires Shape(s) && Claims(s) && t < |s.tasks| && AtPark(s.tasks[t]) && e < |Park(s, t).entries|
    ensures EntryClaim(Park(s, t), e)
  {
    assert TaskClaim(s, t);
    if e < |s.entries| { assert EntryClaim(s, e) && EntryShape(s, e); }
  }

  lemma ParkQueue(s: State, t: nat, list: seq<nat>, lock: Option<nat>, c: nat, put: bool)
    requires t < |s.tasks| && ListClaim(s.entries, lock, list)
    ensures ListClaim(Park(s, t).entries, lock, list + Joining(s.tasks[t].call.arms, c, put, |s.entries|))
  {
    var arms := s.tasks[t].call.arms; var n := |s.entries|; var es := Park(s, t).entries;
    JoiningOk(arms, c, put, n);
    var all := list + Joining(arms, c, put, n);
    forall i | 0 <= i < |all| ensures QueuedOk(es, lock, all[i]) {
      if i < |list| { assert QueuedOk(s.entries, lock, list[i]); }
    }
  }

  lemma ClaimsPark(s: State, t: nat)
    requires Shape(s) && Claims(s) && t < |s.tasks| && AtPark(s.tasks[t])
    ensures Claims(Park(s, t))
  {
    var r := Park(s, t);
    forall e | 0 <= e < |r.entries| ensures EntryClaim(r, e) { ParkEntry(s, t, e); }
    forall u | 0 <= u < |r.tasks| ensures TaskClaim(r, u) { if u == t { ParkSelf(s, t); } else { ParkOther(s, t, u); } }
    forall c | 0 <= c < |r.chans| ensures ChanClaim(r, c) {
      assert ChanClaim(s, c);
      ParkQueue(s, t, s.chans[c].takers, s.chans[c].lock, c, false);
      ParkQueue(s, t, s.chans[c].putters, s.chans[c].lock, c, true);
    }
    forall f | 0 <= f < |r.fired| ensures FlagClaim(r.entries, r.fired, f) {
      if f < |s.fired| { assert FlagClaim(s.entries, s.fired, f); }
    }
  }

  // ----------------------------------------------------------------------- steps

  /** The lock of c changes hands, or is released, while its holder is not claiming. */
  lemma ClaimsRelock(s: State, c: nat, lock: Option<nat>)
    requires Claims(s) && c < |s.chans|
    requires s.chans[c].lock.Some? ==>
               var w := s.chans[c].lock.value; w < |s.tasks| && !s.tasks[w].pc.Wake? && !s.tasks[w].pc.CloseWake?
    ensures Claims(SetChan(s, c, s.chans[c].(lock := lock)))
  {
    assert ChanClaim(s, c);
    ListRelocked(s, s.chans[c].takers, s.chans[c].lock, lock);
    ListRelocked(s, s.chans[c].putters, s.chans[c].lock, lock);
    ClaimsChan(s, c, s.chans[c].(lock := lock));
  }

  lemma ClaimsLock(s: State, t: nat, c: nat, pc: PC)
    requires Claims(s) && t < |s.tasks| && LockFree(s, c) && Quiet(s.tasks[t].pc) && s.tasks[t].owed == [] && Quiet(pc)
    ensures Claims(Lock(s, t, c, pc))
  {
    ClaimsRelock(s, c, Some(t));
    ClaimsGoto(SetChan(s, c, s.chans[c].(lock := Some(t))), t, s.tasks[t].(held := s.tasks[t].held + [c], pc := pc));
  }

  /** The state after t let go of its last lock but before it moved on. */
  function LetGo(s: State, t: nat): State
    requires t < |s.tasks| && s.tasks[t].held != [] && s.tasks[t].held[|s.tasks[t].held| - 1] < |s.chans|
  { var c := s.tasks[t].held[|s.tasks[t].held| - 1]; SetChan(s, c, s.chans[c].(lock := None)) }

  lemma ClaimsLetGo(s: State, t: nat)
    requires Shape(s) && Claims(s) && t < |s.tasks| && s.tasks[t].held != [] && !s.tasks[t].pc.Wake?
             && !s.tasks[t].pc.CloseWake?
    ensures s.tasks[t].held[|s.tasks[t].held| - 1] < |s.chans| && Claims(LetGo(s, t))
  {
    assert TaskLocks(s, t);
    ClaimsRelock(s, s.tasks[t].held[|s.tasks[t].held| - 1], None);
  }

  lemma ClaimsShort(s: State, c: nat, ch: Chan, i: nat, j: nat)
    requires Claims(s) && c < |s.chans| && Shortened(s.chans[c], ch, i, j)
    ensures Claims(SetChan(s, c, ch))
  {
    assert ChanClaim(s, c);
    ListShorter(s.entries, ch.lock, s.chans[c].takers, i);
    ListShorter(s.entries, ch.lock, s.chans[c].putters, j);
    ClaimsChan(s, c, ch);
  }

  lemma ClaimsSoftChan(s: State, c: nat, ch: Chan)
    requires Claims(s) && c < |s.chans| && SameLists(s.chans[c], ch)
    ensures Claims(SetChan(s, c, ch))
  { assert ChanClaim(s, c); ClaimsChan(s, c, ch); }

  /** Before its result is known, a walking task owes nothing. */
  lemma NothingOwed(s: State, t: nat)
    requires Claims(s) && t < |s.tasks|
    requires var pc := s.tasks[t].pc; !pc.Deliver? && !pc.PostOut? && !pc.Release? && !pc.CloseSignal? && !CloseOwes(pc)
    ensures s.tasks[t].owed == []
  { assert TaskClaim(s, t); }

  lemma ClaimsDropHead(s: State, t: nat)
    requires Claims(s) && WalkOk(s, t) && !s.tasks[t].pc.Wake?
    requires var a := s.tasks[t].call.arms[s.tasks[t].pc.k]; Others(s.chans[a.ch], a.put) != []
    ensures Claims(DropHead(s, t))
  {
    var x := s.tasks[t]; var a := x.call.arms[x.pc.k]; var ch := Unlinked(s.chans[a.ch], a.put);
    NothingOwed(s, t);
    ClaimsShort(s, a.ch, ch, if a.put then 1 else 0, if a.put then 0 else 1);
    ClaimsGoto(SetChan(s, a.ch, ch), t, x.(pc := Walk(x.pc.two, x.pc.k)));
  }

  lemma ClaimsTakeBuffer(s: State, t: nat, k: nat, c: nat)
    requires Claims(s) && t < |s.tasks| && c < |s.chans| && s.chans[c].buf != [] && s.chans[c].buf[0] < |s.msgs|
    requires Quiet(s.tasks[t].pc) && s.tasks[t].owed == []
    ensures Claims(TakeBuffer(s, t, k, c))
  {
    var r := TakeBuffer(s, t, k, c);
    ClaimsGoto(s, t, r.tasks[t]);
    ClaimsSoftChan(SetTask(s, t, r.tasks[t]), c, r.chans[c]);
    ClaimsSame(SetChan(SetTask(s, t, r.tasks[t]), c, r.chans[c]), r);
  }

  lemma ClaimsPutBuffer(s: State, t: nat, k: nat, c: nat)
    requires Claims(s) && t < |s.tasks| && c < |s.chans| && s.tasks[t].call.base + k < |s.msgs|
    requires Quiet(s.tasks[t].pc) && s.tasks[t].owed == []
    ensures Claims(PutBuffer(s, t, k, c))
  {
    var r := PutBuffer(s, t, k, c);
    ClaimsGoto(s, t, r.tasks[t]);
    ClaimsSoftChan(SetTask(s, t, r.tasks[t]), c, r.chans[c]);
    ClaimsSame(SetChan(SetTask(s, t, r.tasks[t]), c, r.chans[c]), r);
  }

  lemma ClaimsScan(s: State, t: nat)
    requires Claims(s) && CanStep(s, t) && (s.tasks[t].pc.Scan? || s.tasks[t].pc.Acquire?)
    ensures Claims(Step(s, t))
  {
    var x := s.tasks[t];
    NothingOwed(s, t);
    if x.pc.Scan? && x.pc.k < |x.call.arms| { ClaimsLock(s, t, x.call.arms[x.pc.k].ch, Attempt(true, x.pc.k)); }
    else if x.pc.Acquire? && |x.held| < |x.call.order| { ClaimsLock(s, t, x.call.order[|x.held|], Acquire); }
    else { ClaimsGoto(s, t, Step(s, t).tasks[t]); }
  }

  lemma ClaimsAttempt(s: State, t: nat)
    requires Shape(s) && Claims(s) && AttemptOk(s, t) && s.tasks[t].pc.Attempt?
    ensures Claims(StepAttempt(s, t))
  {
    var x := s.tasks[t]; var k := x.pc.k;
    NothingOwed(s, t);
    if k == |x.call.arms| {
      if !x.call.how.Try? { ClaimsPark(s, t); } else { ClaimsGoto(s, t, x.(pc := Release(Empty))); }
    } else {
      var a := x.call.arms[k]; var c := s.chans[a.ch];
      if !a.put && c.buf != [] { ClaimsTakeBuffer(s, t, k, a.ch); }
      else if a.put && !c.closed && x.pc.two && |c.buf| < c.cap { ClaimsPutBuffer(s, t, k, a.ch); }
      else { ClaimsGoto(s, t, StepAttempt(s, t).tasks[t]); }
    }
  }

  lemma ClaimsWalk(s: State, t: nat)
    requires Shape(s) && Claims(s) && WalkOk(s, t) && s.tasks[t].pc.Walk?
    ensures Claims(StepWalk(s, t))
  {
    var x := s.tasks[t]; var k := x.pc.k; var a := x.call.arms[k]; var c := s.chans[a.ch];
    var list := Others(c, a.put); var r := StepWalk(s, t);
    NothingOwed(s, t);
    if list == [] {
      if !a.put && c.closed { ClaimsGoto(s, t, r.tasks[t]); }
      else if a.put && !x.pc.two && |c.buf| < c.cap { ClaimsPutBuffer(s, t, k, a.ch); }
      else if x.pc.two { ClaimsLetGo(s, t); ClaimsGoto(LetGo(s, t), t, r.tasks[t]); }
      else { ClaimsGoto(s, t, r.tasks[t]); }
    } else if s.entries[list[0]].cancelled { ClaimsDropHead(s, t); }
    else { ClaimsGoto(s, t, r.tasks[t]); }
  }

  lemma ClaimsLook(s: State, t: nat)
    requires Claims(s) && WalkOk(s, t) && s.tasks[t].pc.Look?
    ensures Claims(StepLook(s, t))
  {
    var r := StepLook(s, t);
    NothingOwed(s, t);
    if r.tasks[t].pc.Walk? { ClaimsDropHead(s, t); } else { ClaimsGoto(s, t, r.tasks[t]); }
  }

  /** The head that a task examines is unclaimed. */
  lemma HeadWaits(s: State, t: nat, c: nat, e: nat)
    requires Shape(s) && Claims(s) && t < |s.tasks| && c in s.tasks[t].held && c < |s.chans|
    requires e in s.chans[c].takers || e in s.chans[c].putters
    requires !Waking(s.tasks[t].pc, e)
    ensures e < |s.entries| && s.entries[e].stage.Waiting? && s.entries[e].ch == c && s.chans[c].lock == Some(t)
  {
    assert TaskLocks(s, t) && ChanClaim(s, c) && ChanShape(s, c);
    assert QueuedOk(s.entries, s.chans[c].lock, e);
    assert Queueable(s.entries, e, c, false) || Queueable(s.entries, e, c, true);
    assert EntryClaim(s, e);
  }

  lemma ClaimsFireStep(s: State, t: nat)
    requires Shape(s) && Claims(s) && WalkOk(s, t) && s.tasks[t].pc.Fire?
    ensures Claims(StepFire(s, t))
  {
    var x := s.tasks[t]; var a := x.call.arms[x.pc.k]; var e := Others(s.chans[a.ch], a.put)[0];
    NothingOwed(s, t);
    if FiredOver(s, e) { ClaimsDropHead(s, t); }
    else {
      ArmLocked(s, t);
      HeadWaits(s, t, a.ch, e);
      LiveAsleep(s, e);
      ClaimsFire(s, t, e, StepFire(s, t).tasks[t]);
    }
  }

  /** Once the head of a locked list is dropped, it is in no list. */
  lemma DroppedGone(s: State, c: nat, ch: Chan, e: nat, i: nat, j: nat)
    requires Shape(s) && c < |s.chans| && Shortened(s.chans[c], ch, i, j)
    requires (i == 1 && j == 0 && s.chans[c].takers[0] == e) || (i == 0 && j == 1 && s.chans[c].putters[0] == e)
    ensures forall d :: 0 <= d < |s.chans| ==>
              var r := SetChan(s, c, ch); e !in r.chans[d].takers && e !in r.chans[d].putters
  {
    assert ChanShape(s, c);
    assert Queueable(s.entries, e, c, i == 0);
    forall d | 0 <= d < |s.chans| ensures var r := SetChan(s, c, ch);
        e !in r.chans[d].takers && e !in r.chans[d].putters {
      assert ChanShape(s, d);
      var r := SetChan(s, c, ch);
      forall n | 0 <= n < |s.chans[d].takers| ensures Queueable(s.entries, s.chans[d].takers[n], d, false) { }
      forall n | 0 <= n < |s.chans[d].putters| ensures Queueable(s.entries, s.chans[d].putters[n], d, true) { }
    }
  }

  /** The entry being woken leaves its list. */
  lemma ClaimsWakeUnlinks(s: State, t: nat)
    requires Shape(s) && Claims(s) && WalkOk(s, t) && s.tasks[t].pc.Wake?
    ensures var a := s.tasks[t].call.arms[s.tasks[t].pc.k]; var y := StepWake(s, t).chans[a.ch];
            Claims(SetChan(s, a.ch, y)) && CanWake(SetChan(s, a.ch, y), t, Others(s.chans[a.ch], a.put)[0])
  {
    var x := s.tasks[t]; var a := x.call.arms[x.pc.k]; var e := Others(s.chans[a.ch], a.put)[0];
    var r := StepWake(s, t);
    var i := if a.put then 1 else 0;
    assert TaskShape(s, t);
    ClaimsShort(s, a.ch, r.chans[a.ch], i, 1 - i);
    DroppedGone(s, a.ch, r.chans[a.ch], e, i, 1 - i);
  }

  lemma WakingFacts(s: State, t: nat)
    requires Shape(s) && Claims(s) && WalkOk(s, t) && s.tasks[t].pc.Wake?
    ensures var a := s.tasks[t].call.arms[s.tasks[t].pc.k]; var e := Others(s.chans[a.ch], a.put)[0];
            var r := StepWake(s, t);
            && EntryOk(s, e) && WakingTask(s, s.tasks[t], r.tasks[t], e) && WakingEntry(s.entries[e], r.entries[e], t)
            && r.tasks == s.tasks[t := r.tasks[t]] && r.entries == s.entries[e := r.entries[e]]
            && r.chans == s.chans[a.ch := r.chans[a.ch]] && r.fired == s.fired
  {
    var a := s.tasks[t].call.arms[s.tasks[t].pc.k];
    NothingOwed(s, t);
    assert TaskClaim(s, t) && TaskShape(s, t) && EntryClaim(s, Others(s.chans[a.ch], a.put)[0]);
  }

  lemma ClaimsWakeStep(s: State, t: nat)
    requires Shape(s) && Claims(s) && WalkOk(s, t) && s.tasks[t].pc.Wake?
    ensures Claims(StepWake(s, t))
  {
    var a := s.tasks[t].call.arms[s.tasks[t].pc.k]; var e := Others(s.chans[a.ch], a.put)[0]; var r := StepWake(s, t);
    var s1 := SetChan(s, a.ch, r.chans[a.ch]);
    ClaimsWakeUnlinks(s, t);
    WakingFacts(s, t);
    ClaimsWake(s1, t, e, r.tasks[t], r.entries[e]);
    ClaimsSame(Woken(s1, t, r.tasks[t], e, r.entries[e]), r);
  }

  /** After a won claim the fiber is in the park that was claimed: never past it. */
  lemma NeverStale(s: State, t: nat, e: nat)
    requires Claims(s) && t < |s.tasks| && e < |s.entries| && s.entries[e].stage == Owed(t) && EntryOk(s, e)
    requires s.tasks[s.entries[e].owner].kind.Fiber?
    ensures !StalePark(s, e)
    ensures Ready(s, e) <==> s.tasks[s.entries[e].owner].pc.Suspended?
  { assert EntryClaim(s, e) && TaskClaim(s, s.entries[e].owner); }

  lemma ClaimsDeliver(s: State, t: nat)
    requires Shape(s) && Claims(s) && DeliverOk(s, t) && (s.tasks[t].pc.Deliver? || s.tasks[t].pc.PostOut?)
    ensures Claims(StepDeliver(s, t))
  {
    var x := s.tasks[t]; var e := x.owed[0];
    assert TaskClaim(s, t);
    assert OwesEntry(s.tasks, s.entries, t, e, true) || OwesEntry(s.tasks, s.entries, t, e, false);
    if s.tasks[s.entries[e].owner].kind.Fiber? { NeverStale(s, t, e); }
    ClaimsPost(s, t, e, x.(owed := [], pc := if x.pc.Deliver? then Release(x.pc.res) else Return(x.pc.res)));
  }

  lemma ClaimsRelease(s: State, t: nat)
    requires Shape(s) && Claims(s) && CanStep(s, t) && s.tasks[t].pc.Release?
    ensures Claims(Step(s, t))
  {
    var x := s.tasks[t]; var r := Step(s, t); var x1 := r.tasks[t];
    assert TaskClaim(s, t);
    OwedKinds(s.tasks, s.tasks[t := x1], s.entries, t, x);
    if x.held != [] {
      ClaimsLetGo(s, t);
      ClaimsTask(LetGo(s, t), t, x1);
    } else {
      ClaimsTask(s, t, x1);
    }
  }

  lemma ClaimsParkRelease(s: State, t: nat)
    requires Shape(s) && Claims(s) && CanStep(s, t) && s.tasks[t].pc.ParkRelease?
    ensures Claims(Step(s, t))
  {
    var x := s.tasks[t]; var x1 := Step(s, t).tasks[t];
    if x.held != [] {
      ClaimsLetGo(s, t);
      ClaimsParkGoto(LetGo(s, t), t, x1);
    } else {
      ClaimsParkGoto(s, t, x1);
    }
  }

  lemma ClaimsReturn(s: State, t: nat)
    requires Claims(s) && CanStep(s, t) && s.tasks[t].pc.Return?
    ensures Claims(Step(s, t))
  {
    NothingOwed(s, t);
    ClaimsGoto(s, t, s.tasks[t].(pc := Idle));
    ClaimsSame(Goto(s, t, Idle), Step(s, t));
  }

  // ------------------------------------------------------------------ close steps

  lemma ClaimsCloseNext(s: State, t: nat)
    requires Claims(s) && CloseWalkOk(s, t) && !s.tasks[t].pc.CloseWake? && CloseTarget(s.chans[s.tasks[t].pc.c]).Some?
    ensures Claims(CloseNext(s, t))
  {
    var c := s.tasks[t].pc.c; var i := if s.chans[c].takers != [] then 1 else 0;
    ClaimsShort(s, c, CloseDrop(s.chans[c]), i, 1 - i);
    ClaimsCloseGoto(SetChan(s, c, CloseDrop(s.chans[c])), t, s.tasks[t].(pc := CloseWalk(c)));
  }

  lemma ClaimsCloseWalk(s: State, t: nat)
    requires Shape(s) && Claims(s) && CloseWalkOk(s, t) && s.tasks[t].pc.CloseWalk?
    ensures Claims(StepCloseWalk(s, t))
  {
    var x := s.tasks[t]; var x1 := StepCloseWalk(s, t).tasks[t]; var target := CloseTarget(s.chans[x.pc.c]);
    if target.None? { ClaimsLetGo(s, t); ClaimsCloseGoto(LetGo(s, t), t, x1); }
    else if s.entries[target.value].cancelled { ClaimsCloseNext(s, t); }
    else { ClaimsCloseGoto(s, t, x1); }
  }

  lemma ClaimsCloseFire(s: State, t: nat)
    requires Shape(s) && Claims(s) && CloseWalkOk(s, t) && s.tasks[t].pc.CloseFire?
    ensures Claims(StepCloseFire(s, t))
  {
    var x := s.tasks[t]; var e := CloseTarget(s.chans[x.pc.c]).value;
    if FiredOver(s, e) { ClaimsCloseNext(s, t); }
    else {
      assert TaskShape(s, t);
      HeadWaits(s, t, x.pc.c, e);
      LiveAsleep(s, e);
      ClaimsFire(s, t, e, StepCloseFire(s, t).tasks[t]);
    }
  }

  lemma ClaimsCloseWake(s: State, t: nat)
    requires Shape(s) && Claims(s) && CloseWalkOk(s, t) && s.tasks[t].pc.CloseWake?
    ensures Claims(StepCloseWake(s, t))
  {
    var c := s.tasks[t].pc.c; var e := CloseTarget(s.chans[c]).value; var r := StepCloseWake(s, t);
    assert TaskClaim(s, t) && TaskShape(s, t) && EntryClaim(s, e);
    var i := if s.chans[c].takers != [] then 1 else 0;
    ClaimsShort(s, c, CloseDrop(s.chans[c]), i, 1 - i);
    DroppedGone(s, c, CloseDrop(s.chans[c]), e, i, 1 - i);
    ClaimsWake(SetChan(s, c, CloseDrop(s.chans[c])), t, e, r.tasks[t], r.entries[e]);
  }

  /** What is still owed after one entry of a duplicate-free list was posted. */
  lemma OwedWithout(tasks: seq<Task>, entries: seq<Entry>, t: nat, x: Task, y: Task, i: nat)
    requires OwedOk(tasks, entries, t, x) && i < |x.owed|
    requires y.owed == x.owed[..i] + x.owed[i + 1..] && CloseOwes(y.pc)
    requires (i == 0 && CloseOwes(x.pc)) || (i == |x.owed| - 1 && x.pc.CloseSignal?)
    ensures OwedOk(tasks, entries, t, y) && x.owed[i] !in y.owed
    ensures forall d :: d in x.owed && d != x.owed[i] ==> d in y.owed
  {
    forall d | d in x.owed && d != x.owed[i] ensures d in y.owed {
      var k :| 0 <= k < |x.owed| && x.owed[k] == d;
      assert y.owed[if k < i then k else k - 1] == d;
    }
  }

  lemma ClaimsCloseSignal(s: State, t: nat)
    requires Shape(s) && Claims(s) && CloseSignalOk(s, t) && s.tasks[t].pc.CloseSignal?
    ensures Claims(StepCloseSignal(s, t))
  {
    var x := s.tasks[t]; var n := |x.owed| - 1; var y := x.(owed := x.owed[..n], pc := CloseWalk(x.pc.c));
    assert TaskClaim(s, t);
    OwedWithout(s.tasks, s.entries, t, x, y, n);
    ClaimsPost(s, t, x.owed[n], y);
  }

  lemma ClaimsClosePost(s: State, t: nat)
    requires Shape(s) && Claims(s) && ClosePostOk(s, t) && s.tasks[t].pc.ClosePost?
    ensures Claims(StepClosePost(s, t))
  {
    var x := s.tasks[t];
    assert TaskClaim(s, t);
    if x.owed == [] { ClaimsGoto(s, t, StepClosePost(s, t).tasks[t]); }
    else {
      var y := x.(owed := x.owed[1..]);
      assert OwesEntry(s.tasks, s.entries, t, x.owed[0], true);
      NeverStale(s, t, x.owed[0]);
      OwedWithout(s.tasks, s.entries, t, x, y, 0);
      ClaimsPost(s, t, x.owed[0], y);
    }
  }

  lemma ClaimsCloseLock(s: State, t: nat)
    requires Claims(s) && CanStep(s, t) && s.tasks[t].pc.CloseLock?
    ensures Claims(Step(s, t))
  {
    var c := s.tasks[t].pc.c; var s1 := Lock(s, t, c, CloseWalk(c));
    NothingOwed(s, t);
    ClaimsLock(s, t, c, CloseWalk(c));
    ClaimsSoftChan(s1, c, s1.chans[c].(closed := true));
  }

  lemma ClaimsCloseCas(s: State, t: nat)
    requires Claims(s) && CanStep(s, t) && (s.tasks[t].pc.CloseCas? || s.tasks[t].pc.CloseCas2?
             || s.tasks[t].pc.CloseRun?)
    ensures Claims(Step(s, t))
  {
    var r := Step(s, t); var c := s.tasks[t].pc.c;
    NothingOwed(s, t);
    ClaimsGoto(s, t, r.tasks[t]);
    if s.tasks[t].pc.CloseRun? || r.tasks[t].pc.CloseLock? { ClaimsSoftChan(SetTask(s, t, r.tasks[t]), c, r.chans[c]); }
  }

  // -------------------------------------------------------------------- dispatch

  lemma ClaimsCloseStep(s: State, t: nat)
    requires Shape(s) && Claims(s) && CanStep(s, t) && Closes(s.tasks[t].pc)
    ensures Claims(Step(s, t))
  {
    match s.tasks[t].pc {
      case CloseCas(_) => ClaimsCloseCas(s, t);
      case CloseCas2(_) => ClaimsCloseCas(s, t);
      case CloseLock(_) => ClaimsCloseLock(s, t);
      case CloseWalk(_) => ClaimsCloseWalk(s, t);
      case CloseFire(_) => ClaimsCloseFire(s, t);
      case CloseWake(_, _) => ClaimsCloseWake(s, t);
      case CloseSignal(_) => ClaimsCloseSignal(s, t);
      case ClosePost(_) => ClaimsClosePost(s, t);
      case CloseRun(_) => ClaimsCloseCas(s, t);
      case _ =>
    }
  }

  lemma ClaimsWalkStep(s: State, t: nat)
    requires Shape(s) && Claims(s) && CanStep(s, t) && Walks(s.tasks[t].pc)
    ensures Claims(Step(s, t))
  {
    match s.tasks[t].pc {
      case Scan(_) => ClaimsScan(s, t);
      case Acquire => ClaimsScan(s, t);
      case Attempt(_, _) => ClaimsAttempt(s, t);
      case Walk(_, _) => ClaimsWalk(s, t);
      case Look(_, _) => ClaimsLook(s, t);
      case Fire(_, _) => ClaimsFireStep(s, t);
      case Wake(_, _, _) => ClaimsWakeStep(s, t);
      case _ =>
    }
  }

  lemma ClaimsRestStep(s: State, t: nat)
    requires Shape(s) && Claims(s) && CanStep(s, t) && !Walks(s.tasks[t].pc) && !Closes(s.tasks[t].pc)
    ensures Claims(Step(s, t))
  {
    match s.tasks[t].pc {
      case Deliver(_, _, _) => ClaimsDeliver(s, t);
      case PostOut(_) => ClaimsDeliver(s, t);
      case Release(_) => ClaimsRelease(s, t);
      case Return(_) => ClaimsReturn(s, t);
      case ParkRelease => ClaimsParkRelease(s, t);
      case Yield => ClaimsYield(s, t);
      case Switched => ClaimsYield(s, t);
      case Resumed => ClaimsResume(s, t);
      case Wait => ClaimsResume(s, t);
      case Settle(_, _) => ClaimsSettle(s, t);
      case _ =>
    }
  }

  lemma ClaimsStep(s: State, t: nat)
    requires Shape(s) && Claims(s) && CanStep(s, t)
    ensures Claims(Step(s, t))
  {
    if Walks(s.tasks[t].pc) { ClaimsWalkStep(s, t); }
    else if Closes(s.tasks[t].pc) { ClaimsCloseStep(s, t); }
    else { ClaimsRestStep(s, t); }
  }

  lemma ClaimsCloseCall(s: State, a: Action)
    requires Claims(s) && Enabled(s, a) && (a.CloseCall? || a.CloseDirect? || a.LoopDispatch?)
    ensures Claims(Next(s, a))
  {
    var r := Next(s, a); var t := a.t; var x := r.tasks[t];
    NothingOwed(s, t);
    ClaimsGoto(s, t, x);
    var s1 := SetTask(s, t, x);
    if a.CloseCall? && s.chans[a.c].guard.Open? {
      ClaimsSoftChan(s1, a.c, r.chans[a.c]);
      ClaimsSame(SetChan(s1, a.c, r.chans[a.c]), r);
    } else {
      assert r.tasks == s1.tasks;
      ClaimsSame(s1, r);
    }
  }

  lemma ListSub(entries: seq<Entry>, lock: Option<nat>, list: seq<nat>, sub: seq<nat>)
    requires ListClaim(entries, lock, list) && forall e :: e in sub ==> e in list
    ensures ListClaim(entries, lock, sub)
  {
    forall i | 0 <= i < |sub| ensures QueuedOk(entries, lock, sub[i]) { assert sub[i] in list; }
  }

  lemma ClaimsCompact(s: State, t: nat, c: nat)
    requires Shape(s) && Claims(s) && Enabled(s, Sweep(t, c))
    ensures Claims(Compact(s, c))
  {
    assert ChanShape(s, c) && ChanClaim(s, c);
    KeptOk(s, s.chans[c].takers, c, false);
    KeptOk(s, s.chans[c].putters, c, true);
    ListSub(s.entries, s.chans[c].lock, s.chans[c].takers, Kept(s, s.chans[c].takers));
    ListSub(s.entries, s.chans[c].lock, s.chans[c].putters, Kept(s, s.chans[c].putters));
    ClaimsChan(s, c, Compact(s, c).chans[c]);
  }

  lemma ClaimsNext(s: State, a: Action)
    requires Shape(s) && Claims(s) && Enabled(s, a)
    ensures Claims(Next(s, a))
  {
    match a {
      case Invoke(t, how, arms, order) =>
        NothingOwed(s, t);
        ClaimsGoto(s, t, Next(s, a).tasks[t]);
        ClaimsSame(SetTask(s, t, Next(s, a).tasks[t]), Next(s, a));
      case Advance(t) => ClaimsStep(s, t);
      case Resume(t) => ClaimsPop(s, t);
      case CloseCall(_, _, _) => ClaimsCloseCall(s, a);
      case CloseDirect(_, _) => ClaimsCloseCall(s, a);
      case LoopDispatch(_) => ClaimsCloseCall(s, a);
      case Install(c) => ClaimsSoftChan(s, c, SetOnClose(s, c).chans[c]);
      case Sweep(t, c) => ClaimsCompact(s, t, c);
    }
  }
}
