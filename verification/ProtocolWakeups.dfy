/**
 What the steps do to wake-ups and results: every wake-up a task gets is the post of a claimed
 entry of its present park, and a call that was parked returns what its woken entry says.
 */
module ProtocolWakeups {
  import opened Common
  import opened Protocol
  import opened ProtocolShape
  import opened ProtocolClaims
  import opened ProtocolQueues
  import opened ProtocolMessages
  import opened ProtocolRuns

  /** Run-queue and semaphore posts that wait for the task. */
  function Wakeups(x: Task): nat { x.queued + x.sem }

  // ------------------------------------------------------------------- quiet steps

  /** No entry was settled. */
  ghost predicate NoneSettled(es: seq<Entry>, fs: seq<Entry>) {
    |es| <= |fs| && forall e :: 0 <= e < |fs| && fs[e].stage.Settled? ==> e < |es| && fs[e] == es[e]
  }

  /** At most t moved; nobody was posted, no park ended, no call returned. */
  ghost predicate Quiet(s: State, r: State, t: nat) {
    && |r.tasks| == |s.tasks| && r.done == s.done && NoneSettled(s.entries, r.entries)
    && if t >= |s.tasks| then r.tasks == s.tasks
       else && r.tasks == s.tasks[t := r.tasks[t]] && Wakeups(r.tasks[t]) <= Wakeups(s.tasks[t])
            && (s.tasks[t].pc.Return? ==> r.tasks[t].pc == s.tasks[t].pc && r.tasks[t].call == s.tasks[t].call)
  }

  /** The next step of t ends its park or its call. */
  predicate Ends(s: State, t: nat) {
    t < |s.tasks| &&
    var x := s.tasks[t];
    x.pc.Return? || (!x.call.how.Select? && (x.pc.Resumed? || x.pc.Wait?)) || (x.pc.Settle? && x.pc.j >= |x.call.arms|)
  }

  predicate MayPost(pc: PC) { pc.Deliver? || pc.PostOut? || pc.CloseSignal? || pc.ClosePost? }

  predicate Raised(x: Task, y: Task) {
    y == x.(queued := y.queued, sem := y.sem) && Wakeups(y) == Wakeups(x) + 1
  }

  /** The step of t posts the owner of the entry e that t has claimed. */
  ghost predicate Posts(s: State, r: State, t: nat, e: nat) {
    && t < |s.tasks| && e < |s.entries| && s.entries[e].stage == Owed(t)
    && var o := s.entries[e].owner;
       && o < |s.tasks| && o != t && InPark(s.tasks[o], e)
       && |r.tasks| == |s.tasks| && Raised(s.tasks[o], r.tasks[o])
       && r.tasks[t] == s.tasks[t].(owed := r.tasks[t].owed, pc := r.tasks[t].pc) && !s.tasks[t].pc.Return?
       && (forall u :: 0 <= u < |s.tasks| && u != t && u != o ==> r.tasks[u] == s.tasks[u])
       && r.entries == s.entries[e := s.entries[e].(stage := Posted)] && r.done == s.done
  }

  lemma QuietLocks(s: State, t: nat)
    requires CanStep(s, t) && (s.tasks[t].pc.Scan? || s.tasks[t].pc.Acquire?)
    ensures Quiet(s, Step(s, t), t)
  { }

  lemma QuietAttempt(s: State, t: nat)
    requires AttemptOk(s, t)
    ensures Quiet(s, StepAttempt(s, t), t)
  { }

  lemma QuietWalk(s: State, t: nat)
    requires CanStep(s, t) && (s.tasks[t].pc.Walk? || AtHead(s.tasks[t].pc))
    ensures Quiet(s, Step(s, t), t)
  { }

  lemma QuietClose(s: State, t: nat)
    requires CanStep(s, t) && Closes(s.tasks[t].pc) && !MayPost(s.tasks[t].pc)
    ensures Quiet(s, Step(s, t), t)
  { }

  lemma QuietRest(s: State, t: nat)
    requires Claims(s) && CanStep(s, t) && !Walks(s.tasks[t].pc) && !Closes(s.tasks[t].pc)
    requires !MayPost(s.tasks[t].pc) && !Ends(s, t)
    ensures Quiet(s, Step(s, t), t)
  {
    var x := s.tasks[t];
    if x.pc.Settle? { assert EntryClaim(s, x.first + x.pc.j); }
  }

  lemma PostsOwed(s: State, t: nat, x: Task, e: nat)
    requires Claims(s) && t < |s.tasks| && MayPost(s.tasks[t].pc) && x == s.tasks[t].(owed := x.owed, pc := x.pc)
    requires EntryOk(s, e) && s.entries[e].stage == Owed(t)
    ensures Posts(s, Post(SetTask(s, t, x), e), t, e)
  { assert EntryClaim(s, e); }

  lemma DeliverEffect(s: State, t: nat)
    requires Shape(s) && Claims(s) && DeliverOk(s, t)
    ensures Posts(s, StepDeliver(s, t), t, s.tasks[t].owed[0])
  {
    var x := s.tasks[t]; var e := x.owed[0];
    OwedFacts(s, t, 0);
    if s.tasks[s.entries[e].owner].kind.Fiber? { NeverStale(s, t, e); }
    PostsOwed(s, t, x.(owed := [], pc := if x.pc.Deliver? then Release(x.pc.res) else Return(x.pc.res)), e);
  }

  lemma SignalEffect(s: State, t: nat)
    requires Shape(s) && Claims(s) && CloseSignalOk(s, t)
    ensures Posts(s, StepCloseSignal(s, t), t, s.tasks[t].owed[|s.tasks[t].owed| - 1])
  {
    var x := s.tasks[t]; var n := |x.owed| - 1;
    OwedFacts(s, t, n);
    PostsOwed(s, t, x.(owed := x.owed[..n], pc := CloseWalk(x.pc.c)), x.owed[n]);
  }

  lemma ClosePostEffect(s: State, t: nat)
    requires Shape(s) && Claims(s) && ClosePostOk(s, t)
    ensures if s.tasks[t].owed == [] then Quiet(s, StepClosePost(s, t), t)
            else Posts(s, StepClosePost(s, t), t, s.tasks[t].owed[0])
  {
    var x := s.tasks[t];
    if x.owed != [] {
      OwedFacts(s, t, 0);
      assert TaskClaim(s, t);
      NeverStale(s, t, x.owed[0]);
      PostsOwed(s, t, x.(owed := x.owed[1..]), x.owed[0]);
    }
  }

  ghost predicate PostsSome(s: State, r: State, t: nat) { exists e :: Posts(s, r, t, e) }

  lemma PostEffect(s: State, t: nat)
    requires Shape(s) && Claims(s) && CanStep(s, t) && MayPost(s.tasks[t].pc)
    ensures Quiet(s, Step(s, t), t) || PostsSome(s, Step(s, t), t)
  {
    match s.tasks[t].pc {
      case CloseSignal(_) => SignalEffect(s, t);
      case ClosePost(_) => ClosePostEffect(s, t);
      case _ => DeliverEffect(s, t);
    }
  }

  lemma StepEffect(s: State, t: nat)
    requires Shape(s) && Claims(s) && CanStep(s, t) && !Ends(s, t)
    ensures Quiet(s, Step(s, t), t) || PostsSome(s, Step(s, t), t)
  {
    var pc := s.tasks[t].pc;
    if MayPost(pc) { PostEffect(s, t); }
    else if pc.Scan? || pc.Acquire? { QuietLocks(s, t); }
    else if pc.Attempt? { QuietAttempt(s, t); }
    else if Walks(pc) { QuietWalk(s, t); }
    else if Closes(pc) { QuietClose(s, t); }
    else { QuietRest(s, t); }
  }

  /** The task that an action moves, if any. */
  function Mover(s: State, a: Action): nat { if a.Install? then |s.tasks| else a.t }

  lemma ActionEffect(s: State, a: Action)
    requires Enabled(s, a) && !a.Advance?
    ensures Quiet(s, Next(s, a), Mover(s, a))
  { }

  lemma NextEffect(s: State, a: Action)
    requires Shape(s) && Claims(s) && Enabled(s, a) && !(a.Advance? && Ends(s, a.t))
    ensures Quiet(s, Next(s, a), Mover(s, a)) || PostsSome(s, Next(s, a), Mover(s, a))
  {
    if a.Advance? { StepEffect(s, a.t); } else { ActionEffect(s, a); }
  }

  // ------------------------------------------------------------ one wake-up per park

  lemma EndRaisesNothing(s: State, t: nat, u: nat)
    requires CanStep(s, t) && Ends(s, t) && u < |s.tasks|
    ensures |Step(s, t).tasks| == |s.tasks| && Wakeups(Step(s, t).tasks[u]) <= Wakeups(s.tasks[u])
  { }

  /** Whenever a task gets a wake-up, it is one, and it is the post of a claimed entry of the
      park the task is in. */
  lemma RaiseIsPost(run: seq<State>, actions: seq<Action>, i: nat, t: nat) returns (e: nat)
    requires IsRun(run, actions) && i < |actions| && t < |run[i].tasks| && t < |run[i + 1].tasks|
    requires Wakeups(run[i + 1].tasks[t]) > Wakeups(run[i].tasks[t])
    ensures e < |run[i].entries| && run[i].entries[e].owner == t && InPark(run[i].tasks[t], e)
    ensures run[i].entries[e].stage.Owed?
    ensures run[i + 1].entries == run[i].entries[e := run[i].entries[e].(stage := Posted)]
    ensures Raised(run[i].tasks[t], run[i + 1].tasks[t])
  {
    var s := run[i]; var a := actions[i]; var r := run[i + 1];
    InvRun(run, actions, i);
    assert Enabled(s, a) && r == Next(s, a);
    if a.Advance? && Ends(s, a.t) { EndRaisesNothing(s, a.t, t); }
    NextEffect(s, a);
    e :| Posts(s, r, Mover(s, a), e);
  }

  /** Two entries of one park. */
  lemma ParkShares(s: State, t: nat, d: nat, e: nat)
    requires Shape(s) && Claims(s) && t < |s.tasks| && InPark(s.tasks[t], d) && InPark(s.tasks[t], e) && d != e
    ensures d < |s.entries| && e < |s.entries| && s.entries[d].sel.Some? && s.entries[d].sel == s.entries[e].sel
  {
    var x := s.tasks[t];
    assert TaskClaim(s, t) && TaskShape(s, t);
    assert ArmEntry(s.entries, t, x.call, x.first, x.sel, d - x.first)
           && ArmEntry(s.entries, t, x.call, x.first, x.sel, e - x.first);
  }

  lemma OneWoken(s: State, d: nat, e: nat)
    requires Claims(s) && d < |s.entries| && e < |s.entries| && s.entries[d].woken && s.entries[e].woken
    requires s.entries[d].sel.Some? && s.entries[d].sel == s.entries[e].sel
    ensures d == e
  { assert EntryClaim(s, d) && EntryClaim(s, e); }

  /** No park is posted twice: two wake-ups of one task belong to different parks. */
  lemma PostedOnce(run: seq<State>, actions: seq<Action>, i: nat, j: nat, t: nat)
    requires IsRun(run, actions) && i < j < |actions| && t < |run[i].tasks| && t < |run[i + 1].tasks|
    requires t < |run[j].tasks| && t < |run[j + 1].tasks|
    requires Wakeups(run[i + 1].tasks[t]) > Wakeups(run[i].tasks[t])
    requires Wakeups(run[j + 1].tasks[t]) > Wakeups(run[j].tasks[t])
    ensures run[i].tasks[t].first != run[j].tasks[t].first
  {
    var d := RaiseIsPost(run, actions, i, t);
    var e := RaiseIsPost(run, actions, j, t);
    InvRun(run, actions, i);
    InvRun(run, actions, j);
    AdvRun(run, actions, i + 1, j);
    assert EntryAdvances(run[i + 1].entries[d], run[j].entries[d]);
    assert EntryClaim(run[i], d) && EntryClaim(run[j], e);
    if run[i].tasks[t].first == run[j].tasks[t].first {
      if InPark(run[i].tasks[t], e) {
        ParkShares(run[i], t, d, e);
        assert EntryAdvances(run[i + 1].entries[e], run[j].entries[e]);
      } else { ParkShares(run[j], t, d, e); }
      OneWoken(run[j], d, e);
    }
  }

  // ------------------------------------------------------------ results of parked calls

  /** What a call returns whose arm j was woken through y. */
  predicate Outcome(y: Entry, res: Res, j: nat) {
    if !y.ok then res == ClosedAt(j)
    else if y.put then res == Sent(j)
    else res.Took? && res.arm == j && y.slot == Some(res.msg)
  }

  /** y is the entry of an arm of the call, and the result is y's outcome. */
  predicate Reports(call: Call, res: Res, y: Entry) { Covers(call, y) && Outcome(y, res, y.msg - call.base) }

  predicate Covers(call: Call, y: Entry) { call.base <= y.msg < call.base + |call.arms| }

  predicate Returning(tasks: seq<Task>, y: Entry) {
    y.owner < |tasks| && tasks[y.owner].pc.Return? && Reports(tasks[y.owner].call, tasks[y.owner].pc.res, y)
  }

  ghost predicate Returned(done: seq<Done>, y: Entry) {
    exists i :: 0 <= i < |done| && done[i].task == y.owner && Reports(done[i].call, done[i].res, y)
  }

  ghost predicate Reported(s: State, e: nat)
    requires e < |s.entries|
  { s.entries[e].stage.Settled? ==> Returning(s.tasks, s.entries[e]) || Returned(s.done, s.entries[e]) }

  ghost predicate AllReported(s: State) { forall e :: 0 <= e < |s.entries| ==> Reported(s, e) }

  lemma ReportedLater(done: seq<Done>, more: seq<Done>, y: Entry)
    requires Returned(done, y) && done <= more
    ensures Returned(more, y)
  {
    var i :| 0 <= i < |done| && done[i].task == y.owner && Reports(done[i].call, done[i].res, y);
    assert more[i] == done[i];
  }

  lemma ReportedQuiet(s: State, r: State, t: nat)
    requires AllReported(s) && (Quiet(s, r, t) || PostsSome(s, r, t))
    ensures AllReported(r)
  {
    forall e | 0 <= e < |r.entries| && r.entries[e].stage.Settled? ensures Reported(r, e) {
      if Quiet(s, r, t) { assert Reported(s, e); }
      else {
        var d :| Posts(s, r, t, d);
        assert Reported(s, e);
      }
    }
  }

  lemma ReportedReturn(s: State, t: nat)
    requires AllReported(s) && t < |s.tasks| && s.tasks[t].pc.Return? && ResOk(s, s.tasks[t].pc.res)
    ensures AllReported(StepReturn(s, t))
  {
    var r := StepReturn(s, t);
    forall e | 0 <= e < |r.entries| && r.entries[e].stage.Settled? ensures Reported(r, e) {
      assert Reported(s, e);
      var y := s.entries[e];
      if Returned(s.done, y) { ReportedLater(s.done, r.done, y); }
      else if y.owner == t { assert r.done[|s.done|] == Done(t, s.tasks[t].call, s.tasks[t].pc.res); }
    }
  }

  lemma ReportedFinish(s: State, t: nat, x: Task, e: nat)
    requires AllReported(s) && t < |s.tasks| && FinishOk(s, x.first, e) && !s.tasks[t].pc.Return?
    requires Covers(x.call, s.entries[e]) && s.entries[e].msg == x.call.base + (e - x.first) && s.entries[e].owner == t
    ensures AllReported(Finish(s, t, x, e))
  {
    var r := Finish(s, t, x, e);
    forall d | 0 <= d < |r.entries| && r.entries[d].stage.Settled? ensures Reported(r, d) {
      if d == e { assert Returning(r.tasks, r.entries[e]); } else { assert Reported(s, d); }
    }
  }

  lemma ReportedEnds(s: State, t: nat)
    requires Shape(s) && Claims(s) && AllReported(s) && CanStep(s, t) && Ends(s, t)
    ensures AllReported(Step(s, t))
  {
    var x := s.tasks[t];
    if x.pc.Return? { ReportedReturn(s, t); }
    else {
      assert TaskClaim(s, t) && TaskShape(s, t);
      var k := if x.pc.Settle? then x.pc.winner.value else 0;
      assert ArmEntry(s.entries, t, x.call, x.first, x.sel, k);
      var y := if x.pc.Resumed? then x.(parked := 0) else if x.pc.Wait? then x.(sem := x.sem - 1) else x;
      ReportedFinish(s, t, y, x.first + k);
    }
  }

  lemma {:induction false} ReportedRun(run: seq<State>, actions: seq<Action>, n: nat)
    requires IsRun(run, actions) && n < |run|
    ensures AllReported(run[n])
  {
    if n > 0 {
      var s := run[n - 1]; var a := actions[n - 1];
      ReportedRun(run, actions, n - 1);
      InvRun(run, actions, n - 1);
      assert Enabled(s, a) && run[n] == Next(s, a);
      if a.Advance? && Ends(s, a.t) { ReportedEnds(s, a.t); }
      else {
        NextEffect(s, a);
        ReportedQuiet(s, run[n], Mover(s, a));
      }
    }
  }

  /** The finished calls of one task are over different records, in order. */
  ghost predicate DoneApart(done: seq<Done>) {
    forall i, j :: 0 <= i < j < |done| && done[i].task == done[j].task ==>
      done[i].call.base + |done[i].call.arms| <= done[j].call.base
  }

  lemma ApartReturn(s: State, t: nat)
    requires Messages(s) && DoneApart(s.done) && t < |s.tasks| && s.tasks[t].pc.Return? && ResOk(s, s.tasks[t].pc.res)
    ensures DoneApart(StepReturn(s, t).done)
  {
    var r := StepReturn(s, t);
    forall i, j | 0 <= i < j < |r.done| && r.done[i].task == r.done[j].task
      ensures r.done[i].call.base + |r.done[i].call.arms| <= r.done[j].call.base
    {
      assert DoneBefore(s.tasks, s.done[i]);
    }
  }

  lemma ApartNext(s: State, a: Action)
    requires Inv(s) && Enabled(s, a) && DoneApart(s.done)
    ensures DoneApart(Next(s, a).done)
  {
    if !(a.Advance? && Ends(s, a.t)) { NextEffect(s, a); }
    else if s.tasks[a.t].pc.Return? { ApartReturn(s, a.t); }
  }

  lemma {:induction false} ApartRun(run: seq<State>, actions: seq<Action>, n: nat)
    requires IsRun(run, actions) && n < |run|
    ensures DoneApart(run[n].done)
  {
    if n > 0 {
      ApartRun(run, actions, n - 1);
      InvRun(run, actions, n - 1);
      assert Enabled(run[n - 1], actions[n - 1]) && run[n] == Next(run[n - 1], actions[n - 1]);
      ApartNext(run[n - 1], actions[n - 1]);
    }
  }

  /** The entries of a finished call that were woken are settled. */
  lemma DoneSettled(s: State, e: nat, i: nat)
    requires Inv(s) && e < |s.entries| && s.entries[e].woken && i < |s.done|
    requires s.done[i].task == s.entries[e].owner && Covers(s.done[i].call, s.entries[e])
    ensures s.entries[e].stage.Settled?
  {
    var o := s.entries[e].owner;
    assert EntryClaim(s, e) && DoneBefore(s.tasks, s.done[i]) && TaskClaim(s, o);
    var x := s.tasks[o];
    assert InPark(x, e) ==> ArmEntry(s.entries, o, x.call, x.first, x.sel, e - x.first);
  }

  /** A finished call one of whose entries was woken returned what that entry says: GOC_CLOSED
      at its arm, its message sent, or the message in its slot. */
  lemma ParkResult(run: seq<State>, actions: seq<Action>, n: nat, e: nat, i: nat)
    requires IsRun(run, actions) && n < |run| && e < |run[n].entries| && run[n].entries[e].woken
    requires i < |run[n].done| && run[n].done[i].task == run[n].entries[e].owner
             && Covers(run[n].done[i].call, run[n].entries[e])
    ensures Outcome(run[n].entries[e], run[n].done[i].res, run[n].entries[e].msg - run[n].done[i].call.base)
  {
    var s := run[n]; var y := s.entries[e];
    InvRun(run, actions, n);
    ReportedRun(run, actions, n);
    ApartRun(run, actions, n);
    DoneSettled(s, e, i);
    assert Reported(s, e) && DoneBefore(s.tasks, s.done[i]);
    if Returned(s.done, y) {
      var j :| 0 <= j < |s.done| && s.done[j].task == y.owner && Reports(s.done[j].call, s.done[j].res, y);
    }
  }

  // ------------------------------------------------------------- when an arm is parked

  lemma WalkParks(s: State, t: nat)
    requires CanStep(s, t) && Walks(s.tasks[t].pc) && |Step(s, t).entries| > |s.entries|
    ensures AtPark(s.tasks[t]) && Step(s, t) == Park(s, t)
  { }

  lemma RestParksNone(s: State, t: nat)
    requires CanStep(s, t) && !Walks(s.tasks[t].pc)
    ensures |Step(s, t).entries| == |s.entries|
  { }

  /** Entries are made by Phase 6 alone. */
  lemma OnlyParkAdds(s: State, a: Action)
    requires Enabled(s, a) && |Next(s, a).entries| > |s.entries|
    ensures a.Advance? && AtPark(s.tasks[a.t]) && Next(s, a) == Park(s, a.t)
  {
    if a.Advance? {
      if Walks(s.tasks[a.t].pc) { WalkParks(s, a.t); } else { RestParksNone(s, a.t); }
    }
  }

  lemma MadeUnready(s: State, a: Action, e: nat)
    requires Inv(s) && Enabled(s, a) && |s.entries| <= e < |Next(s, a).entries|
    ensures var y := Next(s, a).entries[e];
            ArmWaits(s.chans, Arm(y.ch, y.put)) && |s.chans[y.ch].buf| <= s.chans[y.ch].cap
  {
    OnlyParkAdds(s, a);
    AllWait(s, a.t);
    var arm := s.tasks[a.t].call.arms[e - |s.entries|];
    assert ArmWaits(s.chans, arm) && ChanQueue(s, arm.ch);
  }

  /** When an arm is parked it was not ready: its channel is open, a put arm found no taker and a
      full buffer, a take arm found no putter and an empty one.  From then on a slot beside a
      parked put arm is free only because a take emptied it after the arm was parked. */
  lemma ParkedUnready(run: seq<State>, actions: seq<Action>, p: nat, n: nat, e: nat)
    requires IsRun(run, actions) && p < n < |run| && |run[p].entries| <= e < |run[p + 1].entries|
    ensures e < |run[n].entries| && ArmWaits(run[p].chans, Arm(run[n].entries[e].ch, run[n].entries[e].put))
    ensures run[n].entries[e].ch < |run[n].chans|
    ensures var x := run[p].chans[run[n].entries[e].ch]; var y := run[n].chans[run[n].entries[e].ch];
            run[n].entries[e].put ==> |x.buf| == x.cap && y.cap - |y.buf| <= y.taken - x.taken
  {
    assert Enabled(run[p], actions[p]) && run[p + 1] == Next(run[p], actions[p]);
    InvRun(run, actions, p);
    MadeUnready(run[p], actions[p], e);
    AdvRun(run, actions, p, n);
    AdvRun(run, actions, p + 1, n);
    assert EntryAdvances(run[p + 1].entries[e], run[n].entries[e]);
    var c := run[n].entries[e].ch;
    assert ChanAdvances(run[p].chans[c], run[n].chans[c]);
  }
}
