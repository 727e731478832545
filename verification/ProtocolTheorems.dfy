/**
 What the protocol promises, for every run of any number of fibers, threads and callbacks
 over any number of channels.
 */
module ProtocolTheorems {
  import opened Common
  import opened Protocol
  import opened ProtocolShape
  import opened ProtocolClaims
  import opened ProtocolQueues
  import opened ProtocolMessages
  import opened ProtocolRuns
  import opened ProtocolWakeups

  // ---------------------------------------------------------------- conservation

  /** A message is never in two places. */
  lemma OnePlace(s: State, m: nat, p: Place)
    requires Inv(s) && At(s, m, p)
    ensures m < |s.msgs| && s.msgs[m].place == Some(p)
  {
    match p {
      case InBuf(c, i) => assert ChanMsgs(s.msgs, s.chans[c], c);
          assert CameBy(s.msgs, s.chans[c].buf[i - s.chans[c].taken], c,
                 InBuf(c, s.chans[c].taken + (i - s.chans[c].taken)));
      case InSlot(e) => assert SlotMsg(s.msgs, s.entries[e], e);
      case InHand(t) => assert TaskMsgs(s, t);
      case Out(i) => assert DoneMsg(s.msgs, s.done[i], i);
    }
  }

  /** m is at p and nowhere else. */
  ghost predicate OnlyAt(s: State, m: nat, p: Place) { At(s, m, p) && forall q :: At(s, m, q) ==> q == p }

  function SentMsg(d: Done): nat
    requires d.res.Sent?
  { d.call.base + d.res.arm }

  /** A send that returned GOC_OK put its message in exactly one place: a buffer, a receiver's
      result slot, the hands of a running receive, or the result of one finished receive. */
  lemma SentOnce(run: seq<State>, actions: seq<Action>, n: nat, i: nat)
    requires IsRun(run, actions) && n < |run| && i < |run[n].done| && run[n].done[i].res.Sent?
    ensures exists p :: OnlyAt(run[n], SentMsg(run[n].done[i]), p)
  {
    var s := run[n]; var d := s.done[i]; var m := SentMsg(d);
    InvRun(run, actions, n);
    assert DoneMsg(s.msgs, d, i) && DonePlaced(s.msgs, d, d.res.arm);
    assert MsgOk(s, m);
    var p := s.msgs[m].place.value;
    forall q | At(s, m, q) ensures q == p { OnePlace(s, m, q); }
    assert OnlyAt(s, m, p);
  }

  /** The message of an arm that its call did not report as sent (the call took GOC_CLOSED,
      another arm won, or nothing was ready) is never anywhere afterwards. */
  lemma UnsentNowhere(run: seq<State>, actions: seq<Action>, n: nat, later: nat, i: nat, j: nat, p: Place)
    requires IsRun(run, actions) && n <= later < |run| && i < |run[n].done|
    requires j < |run[n].done[i].call.arms| && run[n].done[i].res != Sent(j)
    ensures !At(run[later], run[n].done[i].call.base + j, p)
  {
    var s := run[later];
    InvRun(run, actions, later);
    AdvRun(run, actions, n, later);
    assert s.done[i] == run[n].done[i];
    assert DoneMsg(s.msgs, s.done[i], i) && DonePlaced(s.msgs, s.done[i], j);
    if At(s, s.done[i].call.base + j, p) { OnePlace(s, s.done[i].call.base + j, p); }
  }

  /** What a receive returned was sent by a put arm on the channel of the receiving arm,
      and no other receive ever returns it. */
  lemma ReceivedOnce(run: seq<State>, actions: seq<Action>, n: nat, i: nat, j: nat)
    requires IsRun(run, actions) && n < |run| && i < |run[n].done| && run[n].done[i].res.Took?
    requires j < |run[n].done| && run[n].done[j].res.Took? && run[n].done[j].res.msg == run[n].done[i].res.msg
    ensures i == j
    ensures var d := run[n].done[i];
            && d.res.msg < |run[n].msgs| && run[n].msgs[d.res.msg].put
            && d.res.arm < |d.call.arms| && !d.call.arms[d.res.arm].put
            && run[n].msgs[d.res.msg].ch == d.call.arms[d.res.arm].ch
  {
    var s := run[n]; var m := s.done[i].res.msg;
    InvRun(run, actions, n);
    OnePlace(s, m, Out(i));
    OnePlace(s, m, Out(j));
    assert DoneMsg(s.msgs, s.done[i], i) && MsgOk(s, m);
  }

  // -------------------------------------------------------------------- one winner

  /** Two arms of one select are never both woken, not even before the losers are cancelled. */
  lemma NoSecondClaim(run: seq<State>, actions: seq<Action>, n: nat, later: nat, d: nat, e: nat)
    requires IsRun(run, actions) && n <= later < |run|
    requires e < |run[n].entries| && run[n].entries[e].woken && run[n].entries[e].sel.Some?
    requires d < |run[later].entries| && run[later].entries[d].sel == run[n].entries[e].sel && d != e
    ensures !run[later].entries[d].woken
  {
    var s := run[later];
    InvRun(run, actions, later);
    AdvRun(run, actions, n, later);
    assert EntryAdvances(run[n].entries[e], s.entries[e]);
    assert EntryClaim(s, d) && EntryClaim(s, e);
  }

  predicate ArmWoken(s: State, x: Task, j: nat) { x.first + j < |s.entries| && s.entries[x.first + j].woken }

  /** Arm j of the park of x was woken and no other was. */
  ghost predicate SoleWinner(s: State, x: Task, j: nat) {
    j < |x.call.arms| && ArmWoken(s, x, j) && forall i :: 0 <= i < |x.call.arms| && ArmWoken(s, x, i) ==> i == j
  }

  /** A select that resumes finds exactly one of its entries woken, so "no winner" cannot happen. */
  lemma OneWinner(run: seq<State>, actions: seq<Action>, n: nat, t: nat)
    requires IsRun(run, actions) && n < |run| && t < |run[n].tasks|
    ensures !run[n].tasks[t].pc.Abort?
    ensures var x := run[n].tasks[t];
            (x.pc.Resumed? || x.pc.Settle?) && x.call.how.Select? ==> exists j :: SoleWinner(run[n], x, j)
  {
    var s := run[n]; var x := s.tasks[t];
    InvRun(run, actions, n);
    assert TaskClaim(s, t);
    if (x.pc.Resumed? || x.pc.Settle?) && x.call.how.Select? {
      CandidateInPark(s, t);
      var w := Candidate(s.fired, x).value; var j := w - x.first;
      assert EntryClaim(s, w);
      forall i | 0 <= i < |x.call.arms| && ArmWoken(s, x, i) ensures i == j {
        assert ArmEntry(s.entries, t, x.call, x.first, x.sel, i) && ArmEntry(s.entries, t, x.call, x.first, x.sel, j);
        assert EntryClaim(s, x.first + i);
      }
      assert SoleWinner(s, x, j);
    }
  }

  // ---------------------------------------------------------------- park handshake

  /** A fiber is in a run queue at most once, and only when it is suspended in its park. */
  lemma PostedSuspended(run: seq<State>, actions: seq<Action>, n: nat, t: nat)
    requires IsRun(run, actions) && n < |run| && t < |run[n].tasks|
    ensures run[n].tasks[t].queued + run[n].tasks[t].sem <= 1
    ensures run[n].tasks[t].queued > 0 ==> run[n].tasks[t].pc.Suspended? && run[n].tasks[t].parked == Want(1)
  {
    InvRun(run, actions, n);
    assert TaskClaim(run[n], t);
  }

  /** After a won claim the "stale fiber" exit of a spin loop is never taken. */
  lemma StaleUnreachable(run: seq<State>, actions: seq<Action>, n: nat, t: nat, i: nat)
    requires IsRun(run, actions) && n < |run| && t < |run[n].tasks| && i < |run[n].tasks[t].owed|
    ensures var e := run[n].tasks[t].owed[i];
            EntryOk(run[n], e) && (run[n].tasks[run[n].entries[e].owner].kind.Fiber? ==> !StalePark(run[n], e))
  {
    var s := run[n]; var e := s.tasks[t].owed[i];
    InvRun(run, actions, n);
    OwedFacts(s, t, i);
    assert EntryShape(s, e);
    if s.tasks[s.entries[e].owner].kind.Fiber? { NeverStale(s, t, e); }
  }

  // --------------------------------------------------------------- no lost wake-up

  /** A taker that a put could claim, beside a buffered message. */
  ghost predicate TakerBesideValue(s: State, c: nat)
    requires c < |s.chans|
  { s.chans[c].buf != [] && AnyLive(s, s.chans[c].takers) }

  /** Whenever a lock is free: no live taker sits beside a value, and live takers and putters
      of one channel belong to one select.  The first part needs that no Phase 2 put has
      skipped a live taker, which cannot happen on an unbuffered channel. */
  lemma NoLostWakeup(run: seq<State>, actions: seq<Action>, n: nat, c: nat)
    requires IsRun(run, actions) && n < |run| && c < |run[n].chans| && run[n].chans[c].lock.None?
    ensures !run[n].chans[c].skipped || run[n].chans[c].cap == 0 ==> !TakerBesideValue(run[n], c)
    ensures forall d, e ::
              d in run[n].chans[c].takers && e in run[n].chans[c].putters && Live(run[n], d) && Live(run[n], e) ==>
              run[n].entries[d].sel.Some? && run[n].entries[d].sel == run[n].entries[e].sel
  {
    var s := run[n]; var x := s.chans[c];
    InvRun(run, actions, n);
    assert ChanQueue(s, c);
    forall e | Live(s, e) ensures PendingAt(s.entries, s.fired, e) { LiveUnclaimed(s, e); }
  }

  lemma LiveUnclaimed(s: State, e: nat)
    requires Inv(s) && Live(s, e)
    ensures Unclaimed(s.fired, s.entries[e]) || s.entries[e].stage.Firing?
  { assert EntryClaim(s, e); }

  /** A waiter that a claim would win is still in the list of its channel. */
  lemma LiveStaysQueued(run: seq<State>, actions: seq<Action>, n: nat, e: nat)
    requires IsRun(run, actions) && n < |run| && e < |run[n].entries| && Live(run[n], e)
    ensures var y := run[n].entries[e]; y.ch < |run[n].chans| && e in Queue(run[n].chans[y.ch], y.put)
  {
    InvRun(run, actions, n);
    LiveQueued(run[n], e);
  }

  /** The put arm of Phase 2 keeps the property exactly when no live taker is queued: the
      branch that fails is the one that buffers without looking at the takers. */
  lemma Phase2PutExactly(run: seq<State>, actions: seq<Action>, n: nat, t: nat)
    requires IsRun(run, actions) && n < |run| && CanStep(run[n], t)
    requires run[n].tasks[t].pc.Attempt? && run[n].tasks[t].pc.two
    requires var a := run[n].tasks[t].call.arms[run[n].tasks[t].pc.k];
             a.put && !run[n].chans[a.ch].closed && |run[n].chans[a.ch].buf| < run[n].chans[a.ch].cap
    ensures var a := run[n].tasks[t].call.arms[run[n].tasks[t].pc.k];
            TakerBesideValue(Step(run[n], t), a.ch) <==> AnyLive(run[n], run[n].chans[a.ch].takers)
  {
    var s := run[n]; var a := s.tasks[t].call.arms[s.tasks[t].pc.k]; var r := Step(s, t);
    assert r.chans[a.ch].takers == s.chans[a.ch].takers && r.entries == s.entries && r.fired == s.fired;
    forall e ensures Live(r, e) == Live(s, e) { }
  }

  // --------------------------------------------------------------- per-sender order

  /** Messages of one sender leave a channel in the order they were sent. */
  lemma SenderOrder(run: seq<State>, actions: seq<Action>, n: nat, c: nat, i: nat, j: nat)
    requires IsRun(run, actions) && n < |run| && c < |run[n].chans| && !run[n].chans[c].skipped
    requires i < j < |run[n].chans[c].deq|
    ensures run[n].chans[c].deq[i] < |run[n].msgs| && run[n].chans[c].deq[j] < |run[n].msgs|
    ensures run[n].msgs[run[n].chans[c].deq[i]].sender == run[n].msgs[run[n].chans[c].deq[j]].sender ==>
              run[n].chans[c].deq[i] < run[n].chans[c].deq[j]
  {
    var s := run[n]; var x := s.chans[c];
    InvRun(run, actions, n);
    assert ChanMsgs(s.msgs, x, c);
    assert Dequeued(s.msgs, x.deq[i], c) && Dequeued(s.msgs, x.deq[j], c);
    assert (x.deq + x.buf)[i] == x.deq[i] && (x.deq + x.buf)[j] == x.deq[j];
    if SameSender(s.msgs, x.deq[i], x.deq[j]) { assert SameSender(s.msgs, (x.deq + x.buf)[i], (x.deq + x.buf)[j]); }
  }

  ghost predicate NoneFrom(msgs: seq<Msg>, buf: seq<nat>, t: nat) {
    forall i :: 0 <= i < |buf| && buf[i] < |msgs| ==> msgs[buf[i]].sender != t
  }

  /** Slipping the sender's newest message in front of the buffered ones keeps the order exactly
      when none of those is the sender's own. */
  lemma OvertakesExactly(msgs: seq<Msg>, deq: seq<nat>, buf: seq<nat>, m: nat)
    requires m < |msgs| && InOrder(msgs, deq + buf) && InOrder(msgs, deq + buf + [m])
    ensures InOrder(msgs, deq + [m] + buf) <==> NoneFrom(msgs, buf, msgs[m].sender)
  {
    var was, all, slipped := deq + buf, deq + buf + [m], deq + [m] + buf; var d := |deq|;
    if NoneFrom(msgs, buf, msgs[m].sender) {
      forall i, j | 0 <= i < j < |slipped| && SameSender(msgs, slipped[i], slipped[j]) ensures slipped[i] < slipped[j] {
        if i < d && j == d { assert all[i] == slipped[i] && all[|was|] == m; }
        else if i != d {
          assert was[if i < d then i else i - 1] == slipped[i]
            && was[if j < d then j else j - 1] == slipped[j];
        }
      }
    } else {
      var i :| 0 <= i < |buf| && buf[i] < |msgs| && msgs[buf[i]].sender == msgs[m].sender;
      assert all[d + i] == buf[i] && all[|was|] == m && SameSender(msgs, buf[i], m);
      assert slipped[d] == m && slipped[d + 1 + i] == buf[i] && SameSender(msgs, m, buf[i]);
    }
  }

  lemma WakeKeepsOrder(s: State, t: nat)
    requires Inv(s) && CanStep(s, t) && s.tasks[t].pc.Wake?
    requires s.tasks[t].call.arms[s.tasks[t].pc.k].put
    requires var x := s.chans[s.tasks[t].call.arms[s.tasks[t].pc.k].ch]; InOrder(s.msgs, x.deq + x.buf)
    ensures var x := s.chans[s.tasks[t].call.arms[s.tasks[t].pc.k].ch]; var m := s.tasks[t].call.base + s.tasks[t].pc.k;
            m < |s.msgs| && s.msgs[m].sender == t && InOrder(s.msgs, x.deq + x.buf + [m])
  {
    var k := s.tasks[t].pc.k; var c := s.tasks[t].call.arms[k].ch; var x := s.chans[c];
    assert TaskMsgs(s, t) && TaskShape(s, t) && ArmMsg(s.msgs, t, s.tasks[t].call, k);
    assert ChanMsgs(s.msgs, x, c);
    FlowPlaced(s.msgs, x, c);
    FreshLast(s, t, k, x.deq + x.buf, c);
  }

  /** The hand-over to a parked taker is the step that can break the order; it keeps it exactly
      when the channel's buffer holds no earlier message of the same sender. */
  lemma DirectPutExactly(run: seq<State>, actions: seq<Action>, n: nat, t: nat)
    requires IsRun(run, actions) && n < |run| && CanStep(run[n], t) && run[n].tasks[t].pc.Wake?
    requires run[n].tasks[t].call.arms[run[n].tasks[t].pc.k].put
    requires !run[n].entries[Others(run[n].chans[run[n].tasks[t].call.arms[run[n].tasks[t].pc.k].ch], true)[0]].woken
    requires var x := run[n].chans[run[n].tasks[t].call.arms[run[n].tasks[t].pc.k].ch];
             InOrder(run[n].msgs, x.deq + x.buf)
    ensures var c := run[n].tasks[t].call.arms[run[n].tasks[t].pc.k].ch; var r := Step(run[n], t);
            InOrder(r.msgs, r.chans[c].deq + r.chans[c].buf) <==> NoneFrom(run[n].msgs, run[n].chans[c].buf, t)
  {
    var s := run[n]; var k := s.tasks[t].pc.k; var c := s.tasks[t].call.arms[k].ch; var x := s.chans[c];
    var r := Step(s, t); var m := s.tasks[t].call.base + k;
    InvRun(run, actions, n);
    WakeKeepsOrder(s, t);
    OvertakesExactly(s.msgs, x.deq, x.buf, m);
    assert r.chans[c].deq + r.chans[c].buf == x.deq + [m] + x.buf;
    SendersKept(s.msgs, r.msgs, x.deq + [m] + x.buf);
  }

  lemma SendersKept(msgs: seq<Msg>, after: seq<Msg>, flow: seq<nat>)
    requires |msgs| == |after| && forall i :: 0 <= i < |msgs| ==> msgs[i].sender == after[i].sender
    ensures InOrder(msgs, flow) <==> InOrder(after, flow)
  {
    assert forall i, j :: SameSender(msgs, i, j) == SameSender(after, i, j);
  }

  // ------------------------------------------------------------------------- close

  /** A channel is closed by one task, however many request, dispatch or close it directly. */
  lemma ClosedOnce(run: seq<State>, actions: seq<Action>, n: nat, later: nat, c: nat)
    requires IsRun(run, actions) && n <= later < |run| && c < |run[n].chans|
    ensures c < |run[later].chans|
    ensures run[n].chans[c].closed ==> run[later].chans[c].closed && !run[later].chans[c].closer.Nobody?
    ensures run[n].chans[c].closer.Busy? ==>
              run[later].chans[c].closer == run[n].chans[c].closer || run[later].chans[c].closer.Finished?
    ensures run[n].chans[c].closer.Finished? ==> run[later].chans[c].closer.Finished?
  {
    InvRun(run, actions, later);
    AdvRun(run, actions, n, later);
    assert ChanAdvances(run[n].chans[c], run[later].chans[c]) && ChanQueue(run[later], c);
  }

  /** Once the close has walked the lists they stay empty, and no waiter of the channel is left
      to be claimed. */
  lemma NoWaiterAfterClose(run: seq<State>, actions: seq<Action>, n: nat, later: nat, c: nat, e: nat)
    requires IsRun(run, actions) && n <= later < |run| && c < |run[n].chans|
    requires run[n].chans[c].closer.Finished? || (run[n].chans[c].closed && run[n].chans[c].lock.None?)
    ensures c < |run[later].chans| && run[later].chans[c].takers == [] && run[later].chans[c].putters == []
    ensures e < |run[later].entries| && run[later].entries[e].ch == c ==> !Live(run[later], e)
  {
    var r := run[later];
    InvRun(run, actions, n);
    ClosedAndWalked(run[n], c);
    InvRun(run, actions, later);
    AdvRun(run, actions, n, later);
    assert ChanAdvances(run[n].chans[c], r.chans[c]);
    if e < |r.entries| && r.entries[e].ch == c && Live(r, e) { LiveQueued(r, e); }
  }

  lemma ClosedAndWalked(s: State, c: nat)
    requires Inv(s) && c < |s.chans| && (s.chans[c].closer.Finished? || (s.chans[c].closed && s.chans[c].lock.None?))
    ensures s.chans[c].closed && s.chans[c].takers == [] && s.chans[c].putters == []
  {
    assert ChanQueue(s, c);
    if s.chans[c].closer.Busy? {
      var w := s.chans[c].closer.task;
      assert TaskShape(s, w) && TaskLocks(s, w);
      assert s.tasks[w].held != [] ==> s.chans[s.tasks[w].held[0]].lock == Some(w);
    }
  }

  lemma LiveQueued(s: State, e: nat)
    requires Inv(s) && Live(s, e)
    ensures s.entries[e].ch < |s.chans| && e in Queue(s.chans[s.entries[e].ch], s.entries[e].put)
  {
    LiveUnclaimed(s, e);
    if s.entries[e].stage.Firing? { FiringQueued(s, e); }
    else { assert StillQueued(s.chans, s.fired, s.entries[e], e); }
  }

  /** An entry between its two CASes is the head of a list. */
  lemma FiringQueued(s: State, e: nat)
    requires Inv(s) && e < |s.entries| && s.entries[e].stage.Firing?
    ensures s.entries[e].ch < |s.chans| && e in Queue(s.chans[s.entries[e].ch], s.entries[e].put)
  {
    assert EntryClaim(s, e);
    var w := s.entries[e].stage.who;
    assert TaskShape(s, w);
    var c := if s.tasks[w].pc.Wake? then s.tasks[w].call.arms[s.tasks[w].pc.k].ch else s.tasks[w].pc.c;
    assert ChanShape(s, c);
    assert Queueable(s.entries, e, c, false) || Queueable(s.entries, e, c, true);
  }

  /** Another arm of the select of e has fired. */
  predicate Beaten(s: State, e: nat) {
    && FiredOver(s, e)
    && var d := s.fired[s.entries[e].sel.value].value;
       d != e && d < |s.entries| && s.entries[d].sel == s.entries[e].sel
  }

  /** A waiter that is live when its channel is closed is, once the close lets go of the lock,
      woken with GOC_CLOSED, which its call then returns (`ParkResult`), or beaten by another
      arm of its select. */
  lemma WaiterClosed(run: seq<State>, actions: seq<Action>, n: nat, later: nat, c: nat, e: nat)
    requires IsRun(run, actions) && n <= later < |run| && c < |run[n].chans| && run[n].chans[c].closed
    requires e < |run[n].entries| && run[n].entries[e].ch == c && Live(run[n], e)
    requires c < |run[later].chans| && run[later].chans[c].lock.None?
    ensures e < |run[later].entries|
    ensures if run[later].entries[e].woken then !run[later].entries[e].ok else Beaten(run[later], e)
  {
    var r := run[later];
    AdvRun(run, actions, n, later);
    assert EntryAdvances(run[n].entries[e], r.entries[e]) && WakesOpen(run[n].chans, run[n].entries[e], r.entries[e]);
    InvRun(run, actions, later);
    assert ChanAdvances(run[n].chans[c], r.chans[c]);
    ClosedAndWalked(r, c);
    if !r.entries[e].woken {
      assert EntryClaim(r, e);
      if r.entries[e].stage.Firing? { FiringQueued(r, e); }
      if Live(r, e) { LiveQueued(r, e); }
      assert FlagClaim(r.entries, r.fired, r.entries[e].sel.value);
    }
  }

  /** The record of a send that was reported is among what has passed through its channel. */
  lemma SentFlowed(s: State, i: nat)
    requires Inv(s) && i < |s.done| && s.done[i].res.Sent?
    ensures var d := s.done[i];
            && d.res.arm < |d.call.arms| && d.call.arms[d.res.arm].ch < |s.chans|
            && var x := s.chans[d.call.arms[d.res.arm].ch]; SentMsg(d) in x.deq || SentMsg(d) in x.buf
  {
    var d := s.done[i]; var m := SentMsg(d);
    assert DoneMsg(s.msgs, d, i) && DonePlaced(s.msgs, d, d.res.arm) && ArmMsg(s.msgs, d.task, d.call, d.res.arm);
    assert MsgOk(s, m);
    var p := s.msgs[m].place.value;
    if p.InBuf? {
      assert ChanMsgs(s.msgs, s.chans[p.c], p.c);
      assert CameBy(s.msgs, s.chans[p.c].buf[p.p - s.chans[p.c].taken], p.c,
             InBuf(p.c, s.chans[p.c].taken + (p.p - s.chans[p.c].taken)));
    }
  }

  lemma FlowOld(s: State, c: nat, m: nat)
    requires Inv(s) && c < |s.chans| && (m in s.chans[c].deq || m in s.chans[c].buf)
    ensures m < |s.msgs|
  {
    var x := s.chans[c];
    assert ChanMsgs(s.msgs, x, c);
    if m in x.deq { var j :| 0 <= j < |x.deq| && x.deq[j] == m; assert Dequeued(s.msgs, x.deq[j], c); }
    else { var j :| 0 <= j < |x.buf| && x.buf[j] == m; assert CameBy(s.msgs, x.buf[j], c, InBuf(c, x.taken + j)); }
  }

  /** No call that begins after a channel was closed sends anything on it; a plain put returns
      GOC_CLOSED. */
  lemma PutAfterClose(run: seq<State>, actions: seq<Action>, n: nat, m: nat, later: nat, c: nat, i: nat, k: nat)
    requires IsRun(run, actions) && n <= m < later < |run| && c < |run[n].chans| && run[n].chans[c].closed
    requires actions[m].Invoke? && actions[m].t < |run[m + 1].tasks| && i < |run[later].done|
    requires run[later].done[i].task == actions[m].t && run[later].done[i].call == run[m + 1].tasks[actions[m].t].call
    requires k < |actions[m].arms| && actions[m].arms[k] == Arm(c, true)
    ensures run[later].done[i].res != Sent(k)
    ensures actions[m].how.Plain? ==> run[later].done[i].res == ClosedAt(k)
  {
    var d := run[later].done[i];
    InvRun(run, actions, later);
    assert Enabled(run[m], actions[m]) && run[m + 1] == Next(run[m], actions[m]);
    AdvRun(run, actions, n, m);
    if d.res == Sent(k) {
      SentFlowed(run[later], i);
      DrainAfterClose(run, actions, n, later, c);
      var x := run[n].chans[c];
      assert SentMsg(d) in x.deq + x.buf;
      InvRun(run, actions, n);
      FlowOld(run[n], c, SentMsg(d));
    }
    assert DoneMsg(run[later].msgs, d, i);
  }

  /** From the moment a channel is closed, what comes out of it is a prefix of what was in its
      buffer, in order; the rest is still there. */
  lemma DrainAfterClose(run: seq<State>, actions: seq<Action>, n: nat, later: nat, c: nat)
    requires IsRun(run, actions) && n <= later < |run| && c < |run[n].chans| && run[n].chans[c].closed
    ensures c < |run[later].chans|
    ensures var x := run[n].chans[c]; var y := run[later].chans[c];
            |x.deq| <= |y.deq| && y.deq == x.deq + y.deq[|x.deq|..] && x.buf == y.deq[|x.deq|..] + y.buf
  {
    AdvRun(run, actions, n, later);
    var x := run[n].chans[c]; var y := run[later].chans[c];
    assert ChanAdvances(x, y);
    assert x.buf == (x.deq + x.buf)[|x.deq|..] == (y.deq + y.buf)[|x.deq|..];
  }

  /** A take arm on a closed, drained channel reports GOC_CLOSED. */
  lemma TakeAfterDrain(run: seq<State>, actions: seq<Action>, n: nat, t: nat)
    requires IsRun(run, actions) && n < |run| && CanStep(run[n], t) && run[n].tasks[t].pc.Walk?
    requires var a := run[n].tasks[t].call.arms[run[n].tasks[t].pc.k]; !a.put && run[n].chans[a.ch].closed
    ensures Step(run[n], t) == Goto(run[n], t, Release(ClosedAt(run[n].tasks[t].pc.k)))
    ensures run[n].chans[run[n].tasks[t].call.arms[run[n].tasks[t].pc.k].ch].buf == []
  {
    var s := run[n]; var c := s.tasks[t].call.arms[s.tasks[t].pc.k].ch;
    InvRun(run, actions, n);
    ArmLocked(s, t);
    ClosedEmpty(s, t, c);
    assert TaskQueue(s, t);
  }

  /** Of the callbacks offered to a channel, those run that were installed when it closed or
      offered afterwards, each once. */
  lemma CallbackOnce(run: seq<State>, actions: seq<Action>, n: nat, c: nat, f: nat)
    requires IsRun(run, actions) && n < |run| && c < |run[n].chans|
    ensures var x := run[n].chans[c];
            && (f in x.ran <==>
                f < x.installs &&
                (x.onClose.None? || f > x.onClose.value || (f == x.onClose.value && x.closer.Finished?)))
            && NoDup(x.ran)
            && (!x.closed ==> x.ran == [] && x.onClose == (if x.installs == 0 then None else Some(x.installs - 1)))
  {
    InvRun(run, actions, n);
    var x := run[n].chans[c];
    assert ChanQueue(run[n], c);
    assert x.ran != [] ==> x.ran[0] in x.ran;
  }

  // ------------------------------------------------------------- deadlock freedom

  /** A program counter at which a task is not in the middle of anything. */
  predicate AtRest(pc: PC) { pc.Idle? || pc.Suspended? || pc.Wait? }

  /** The lock the task needs for its next step. */
  function Wants(x: Task): Option<nat> {
    if x.pc.Scan? && x.pc.k < |x.call.arms| then Some(x.call.arms[x.pc.k].ch)
    else if x.pc.Acquire? && |x.held| < |x.call.order| then Some(x.call.order[|x.held|])
    else if x.pc.CloseLock? then Some(x.pc.c)
    else None
  }

  /** Spinning for a fiber to suspend. */
  predicate Spins(pc: PC) { pc.Deliver? || pc.PostOut? || pc.ClosePost? }

  lemma AttemptSteps(s: State, t: nat)
    requires Inv(s) && t < |s.tasks| && s.tasks[t].pc.Attempt?
    ensures CanStep(s, t)
  {
    var x := s.tasks[t];
    assert TaskShape(s, t);
    if x.pc.k < |x.call.arms| {
      ArmLocked(s, t);
      var c := x.call.arms[x.pc.k].ch;
      assert ChanMsgs(s.msgs, s.chans[c], c);
      if s.chans[c].buf != [] { assert CameBy(s.msgs, s.chans[c].buf[0], c, InBuf(c, s.chans[c].taken + 0)); }
    }
  }

  lemma EntryFine(s: State, e: nat)
    requires Inv(s) && e < |s.entries|
    ensures EntryOk(s, e)
  { assert EntryShape(s, e); }

  lemma WalkSteps(s: State, t: nat)
    requires Inv(s) && t < |s.tasks| && (s.tasks[t].pc.Walk? || AtHead(s.tasks[t].pc))
    ensures CanStep(s, t)
  {
    var x := s.tasks[t];
    assert TaskShape(s, t) && TaskLocks(s, t);
    ArmLocked(s, t);
    var a := x.call.arms[x.pc.k]; var list := Others(s.chans[a.ch], a.put);
    assert ChanShape(s, a.ch);
    if list != [] {
      assert Queueable(s.entries, list[0], a.ch, !a.put);
      EntryFine(s, list[0]);
    }
  }

  lemma CloseWalkSteps(s: State, t: nat)
    requires Inv(s) && t < |s.tasks| && CloseLocked(s.tasks[t].pc)
    ensures CanStep(s, t)
  {
    var x := s.tasks[t];
    assert TaskShape(s, t) && TaskLocks(s, t) && ChanShape(s, x.pc.c);
    if x.pc.CloseSignal? {
      assert TaskClaim(s, t);
      OwedFacts(s, t, |x.owed| - 1);
      EntryFine(s, x.owed[|x.owed| - 1]);
    } else if CloseTarget(s.chans[x.pc.c]).Some? {
      var e := CloseTarget(s.chans[x.pc.c]).value;
      assert Queueable(s.entries, e, x.pc.c, false) || Queueable(s.entries, e, x.pc.c, true);
      EntryFine(s, e);
    }
  }

  /** The outcome of a park can be read. */
  lemma CandidateReadable(s: State, t: nat)
    requires Inv(s) && t < |s.tasks| && Parked(s.tasks[t].pc) && IsPosted(s.entries, Candidate(s.fired, s.tasks[t]))
    ensures FinishOk(s, s.tasks[t].first, Candidate(s.fired, s.tasks[t]).value)
  {
    var e := Candidate(s.fired, s.tasks[t]).value;
    CandidateInPark(s, t);
    assert SlotMsg(s.msgs, s.entries[e], e);
  }

  lemma ResumeSteps(s: State, t: nat)
    requires Inv(s) && t < |s.tasks| && (s.tasks[t].pc.Resumed? || s.tasks[t].pc.Settle?
             || (s.tasks[t].pc.Wait? && s.tasks[t].sem > 0))
    ensures CanStep(s, t)
  {
    assert TaskClaim(s, t);
    CandidateReadable(s, t);
  }

  lemma OtherSteps(s: State, t: nat)
    requires Inv(s) && t < |s.tasks| && !AtRest(s.tasks[t].pc) && Wants(s.tasks[t]).None? && !Spins(s.tasks[t].pc)
    ensures CanStep(s, t)
  {
    var pc := s.tasks[t].pc;
    assert TaskShape(s, t) && TaskLocks(s, t);
    if pc.Attempt? { AttemptSteps(s, t); }
    else if pc.Walk? || AtHead(pc) { WalkSteps(s, t); }
    else if CloseLocked(pc) { CloseWalkSteps(s, t); }
    else if pc.Resumed? || pc.Settle? { ResumeSteps(s, t); }
    else { assert TaskClaim(s, t) && TaskMsgs(s, t); }
  }

  /** A task that spins waits for a fiber that only has to unlock and yield. */
  lemma SpinSteps(s: State, t: nat) returns (u: nat)
    requires Inv(s) && t < |s.tasks| && Spins(s.tasks[t].pc)
    ensures CanStep(s, u)
  {
    var x := s.tasks[t];
    assert TaskClaim(s, t) && TaskShape(s, t);
    u := t;
    if x.owed != [] {
      OwedFacts(s, t, 0);
      var e := x.owed[0];
      EntryFine(s, e);
      if s.tasks[s.entries[e].owner].kind.Fiber? && !Ready(s, e) {
        NeverStale(s, t, e);
        AwaitedSteps(s, e);
        u := s.entries[e].owner;
      }
    }
  }

  /** The owner of a claimed entry that is not suspended yet is on its way there. */
  lemma AwaitedSteps(s: State, e: nat)
    requires Inv(s) && EntryOk(s, e) && s.entries[e].stage.Owed? && s.tasks[s.entries[e].owner].kind.Fiber?
             && !Ready(s, e)
    ensures CanStep(s, s.entries[e].owner)
  {
    var o := s.entries[e].owner;
    assert EntryClaim(s, e) && TaskClaim(s, o);
    OtherSteps(s, o);
  }

  /** Some task can always step: lock waits climb in the global lock order, so a chain of
      them ends at a task that waits for no lock. */
  lemma SomeoneSteps(s: State, t: nat) returns (u: nat)
    requires Inv(s) && t < |s.tasks| && !AtRest(s.tasks[t].pc)
    ensures CanStep(s, u)
    decreases if Wants(s.tasks[t]).Some? then |s.chans| - Wants(s.tasks[t]).value + 1 else 0
  {
    var x := s.tasks[t];
    assert TaskShape(s, t);
    if Wants(x).None? {
      if Spins(x.pc) { u := SpinSteps(s, t); } else { OtherSteps(s, t); u := t; }
    } else {
      var c := Wants(x).value;
      WantsInRange(s, t);
      if s.chans[c].lock.None? { u := t; }
      else {
        var v := s.chans[c].lock.value;
        assert ChanShape(s, c) && TaskShape(s, v);
        HolderWants(s, v, c);
        u := SomeoneSteps(s, v);
      }
    }
  }

  lemma WantsInRange(s: State, t: nat)
    requires Inv(s) && t < |s.tasks| && Wants(s.tasks[t]).Some?
    ensures Wants(s.tasks[t]).value < |s.chans|
  {
    assert TaskShape(s, t);
  }

  /** Whoever holds c waits only for locks above c. */
  lemma HolderWants(s: State, v: nat, c: nat)
    requires Inv(s) && v < |s.tasks| && c in s.tasks[v].held
    ensures !AtRest(s.tasks[v].pc)
    ensures Wants(s.tasks[v]).Some? ==> c < Wants(s.tasks[v]).value
  {
    assert TaskShape(s, v);
  }

  /** Whenever a task is inside an operation, some task can take a step: no deadlock. */
  lemma DeadlockFree(run: seq<State>, actions: seq<Action>, n: nat, t: nat)
    requires IsRun(run, actions) && n < |run| && t < |run[n].tasks| && !AtRest(run[n].tasks[t].pc)
    ensures exists u :: CanStep(run[n], u)
  {
    InvRun(run, actions, n);
    var u := SomeoneSteps(run[n], t);
  }

  // -------------------------------------------------------------------- quiescence

  /** No task can step and no posted fiber waits to be resumed. */
  ghost predicate Stuck(s: State) {
    (forall u :: 0 <= u < |s.tasks| ==> !CanStep(s, u)) && (forall u :: 0 <= u < |s.tasks| ==> s.tasks[u].queued == 0)
  }

  lemma StuckAtRest(s: State, t: nat)
    requires Inv(s) && Stuck(s) && t < |s.tasks|
    ensures AtRest(s.tasks[t].pc) && s.tasks[t].owed == [] && s.tasks[t].queued + s.tasks[t].sem == 0
  {
    if !AtRest(s.tasks[t].pc) { var u := SomeoneSteps(s, t); }
    assert TaskClaim(s, t);
    if s.tasks[t].pc.Wait? && s.tasks[t].sem > 0 { ResumeSteps(s, t); }
  }

  /** In a stuck state every entry of a park is still open to claims. */
  lemma StuckUnclaimed(s: State, t: nat, e: nat)
    requires Inv(s) && Stuck(s) && t < |s.tasks| && e < |s.entries| && s.entries[e].owner == t && InPark(s.tasks[t], e)
    ensures s.entries[e].stage.Waiting?
  {
    StuckAtRest(s, t);
    assert EntryClaim(s, e) && TaskClaim(s, t);
    match s.entries[e].stage {
      case Firing(w) => StuckAtRest(s, w);
      case Owed(w) => StuckAtRest(s, w);
      case Posted => ClaimedIsCandidate(s, e);
      case _ =>
    }
  }

  lemma StuckLive(s: State, t: nat, e: nat)
    requires Inv(s) && Stuck(s) && t < |s.tasks| && e < |s.entries| && s.entries[e].owner == t && InPark(s.tasks[t], e)
    ensures Live(s, e) && Unclaimed(s.fired, s.entries[e])
  {
    StuckUnclaimed(s, t, e);
    assert EntryClaim(s, e) && TaskClaim(s, t);
    var x := s.tasks[t];
    assert ArmEntry(s.entries, t, x.call, x.first, x.sel, e - x.first);
    if x.call.how.Select? { assert FlagClaim(s.entries, s.fired, x.sel); }
    if FlagSet(s.fired, s.entries[e]) {
      CandidateInPark(s, t);
      StuckUnclaimed(s, t, s.fired[x.sel].value);
    }
    LiveAsleep(s, e);
  }

  lemma StuckOpen(s: State, t: nat, e: nat)
    requires Inv(s) && Stuck(s) && t < |s.tasks| && e < |s.entries| && s.entries[e].owner == t && InPark(s.tasks[t], e)
    ensures s.entries[e].ch < |s.chans| && !s.chans[s.entries[e].ch].closed
  {
    var c := s.entries[e].ch;
    StuckLive(s, t, e);
    assert StillQueued(s.chans, s.fired, s.entries[e], e);
    assert ChanQueue(s, c);
    if s.chans[c].closer.Busy? { StuckAtRest(s, s.chans[c].closer.task); }
  }

  /** When nothing can move any more, every parked arm is live, its channel is open, a take arm's
      buffer is empty (unless a Phase 2 put skipped a taker), and no waiter of another task is
      queued that it could be matched with.  A put arm may sit beside a free slot, because a take
      from the buffer does not refill it; `ParkedUnready` says how that comes about. */
  lemma Quiescence(run: seq<State>, actions: seq<Action>, n: nat, t: nat, j: nat, d: nat)
    requires IsRun(run, actions) && n < |run| && Stuck(run[n]) && t < |run[n].tasks| && Parked(run[n].tasks[t].pc)
    requires j < |run[n].tasks[t].call.arms|
    ensures var s := run[n]; var a := s.tasks[t].call.arms[j]; var e := s.tasks[t].first + j;
            && Live(s, e) && a.ch < |s.chans| && !s.chans[a.ch].closed
            && (!a.put && !s.chans[a.ch].skipped ==> s.chans[a.ch].buf == [])
            && (d in Others(s.chans[a.ch], a.put) && Live(s, d) ==> s.entries[d].owner == t)
  {
    var s := run[n]; var x := s.tasks[t]; var a := x.call.arms[j]; var e := x.first + j;
    InvRun(run, actions, n);
    assert TaskClaim(s, t) && ArmEntry(s.entries, t, x.call, x.first, x.sel, j);
    StuckLive(s, t, e);
    StuckOpen(s, t, e);
    assert StillQueued(s.chans, s.fired, s.entries[e], e) && ChanQueue(s, a.ch);
    assert PendingAt(s.entries, s.fired, e);
    if d in Others(s.chans[a.ch], a.put) && Live(s, d) {
      LiveUnclaimed(s, d);
      assert PendingAt(s.entries, s.fired, d);
      assert if a.put then Siblings(s.entries, d, e) else Siblings(s.entries, e, d);
      if x.call.how.Select? { assert ArmEntry(s.entries, t, x.call, x.first, x.sel, d - x.first); }
    }
  }
}
