/**
 Fourth layer of the protocol's invariant: every accepted message is in exactly one place,
 and a message that was not accepted is nowhere.
 */
module ProtocolMessages {
  import opened Common
  import opened Protocol
  import opened ProtocolShape
  import opened ProtocolClaims
  import opened ProtocolQueues

  predicate HasRes(pc: PC) { pc.Deliver? || pc.Release? || pc.PostOut? || pc.Return? }

  /** The entry was claimed and its owner has not read the outcome yet. */
  predicate Unread(y: Entry) { y.stage.Owed? || y.stage.Posted? }

  predicate Placed(msgs: seq<Msg>, m: nat) { m < |msgs| && msgs[m].place.Some? }

  predicate PlacedAt(msgs: seq<Msg>, m: nat, p: Place) { m < |msgs| && msgs[m].place == Some(p) }

  // ------------------------------------------------------- where a message is

  predicate HandHolds(x: Task, m: nat) { HasRes(x.pc) && x.pc.res.Took? && x.pc.res.msg == m }
  predicate SlotHolds(y: Entry, m: nat) { Unread(y) && y.ok && !y.put && y.slot == Some(m) }
  predicate BufHolds(x: Chan, p: nat, m: nat) { x.taken <= p < x.taken + |x.buf| && x.buf[p - x.taken] == m }
  predicate DoneHolds(d: Done, m: nat) { d.res.Took? && d.res.msg == m }

  /** Message m is at p. */
  predicate At(s: State, m: nat, p: Place) {
    match p {
      case InBuf(c, i) => c < |s.chans| && BufHolds(s.chans[c], i, m)
      case InSlot(e) => e < |s.entries| && SlotHolds(s.entries[e], m)
      case InHand(t) => t < |s.tasks| && HandHolds(s.tasks[t], m)
      case Out(i) => i < |s.done| && DoneHolds(s.done[i], m)
    }
  }

  predicate MsgOk(s: State, m: nat)
    requires m < |s.msgs|
  {
    s.msgs[m].place.Some? ==>
      && s.msgs[m].put && s.msgs[m].ch < |s.chans| && At(s, m, s.msgs[m].place.value)
      && (!s.msgs[m].place.value.InBuf? ==> m in s.chans[s.msgs[m].ch].deq)
  }

  // --------------------------------------------------- what is found in a place

  predicate CameBy(msgs: seq<Msg>, m: nat, c: nat, p: Place) { PlacedAt(msgs, m, p) && msgs[m].ch == c }

  predicate Dequeued(msgs: seq<Msg>, m: nat, c: nat) {
    m < |msgs| && msgs[m].ch == c && msgs[m].place.Some? && !msgs[m].place.value.InBuf?
  }

  ghost predicate ChanMsgs(msgs: seq<Msg>, x: Chan, c: nat) {
    && (forall i :: 0 <= i < |x.buf| ==> CameBy(msgs, x.buf[i], c, InBuf(c, x.taken + i)))
    && (forall i :: 0 <= i < |x.deq| ==> Dequeued(msgs, x.deq[i], c))
    && NoDup(x.deq)
    && (!x.skipped ==> InOrder(msgs, x.deq + x.buf))
  }

  predicate SameSender(msgs: seq<Msg>, m: nat, n: nat) { m < |msgs| && n < |msgs| && msgs[m].sender == msgs[n].sender }

  /** Messages of one sender appear in the order they were sent. */
  ghost predicate InOrder(msgs: seq<Msg>, flow: seq<nat>) {
    forall i, j :: 0 <= i < j < |flow| && SameSender(msgs, flow[i], flow[j]) ==> flow[i] < flow[j]
  }

  predicate SlotMsg(msgs: seq<Msg>, y: Entry, e: nat) {
    && (Unread(y) && y.ok && !y.put ==> y.slot.Some? && CameBy(msgs, y.slot.value, y.ch, InSlot(e)))
    && (y.ok ==> y.woken)
  }

  predicate ResFits(msgs: seq<Msg>, call: Call, res: Res) {
    match res {
      case Took(k, m) => k < |call.arms| && !call.arms[k].put && m < |msgs| && msgs[m].ch == call.arms[k].ch
      case Sent(k) => k < |call.arms| && call.arms[k].put
      case ClosedAt(k) => k < |call.arms|
      case Empty => call.how.Try?
      case Default => call.how.Select?
    }
  }

  predicate HandMsg(msgs: seq<Msg>, x: Task, t: nat) {
    HasRes(x.pc) ==>
      ResFits(msgs, x.call, x.pc.res) && (x.pc.res.Took? ==> PlacedAt(msgs, x.pc.res.msg, InHand(t)))
  }

  // -------------------------------------------------- which sends were accepted

  /** The running call of x has sent the message of its arm j. */
  predicate Accepted(entries: seq<Entry>, x: Task, j: nat) {
    if HasRes(x.pc) then x.pc.res == Sent(j)
    else Parked(x.pc) && x.first + j < |entries| && entries[x.first + j].ok && entries[x.first + j].put
  }

  predicate ArmPlaced(msgs: seq<Msg>, entries: seq<Entry>, x: Task, j: nat) {
    Placed(msgs, x.call.base + j) <==> Accepted(entries, x, j)
  }

  ghost predicate CallMsgs(msgs: seq<Msg>, entries: seq<Entry>, x: Task, t: nat) {
    && (forall j :: 0 <= j < |x.call.arms| ==> ArmPlaced(msgs, entries, x, j))
    && (forall m :: 0 <= m < |msgs| && msgs[m].sender == t ==> m < x.call.base + |x.call.arms|)
  }

  predicate DonePlaced(msgs: seq<Msg>, d: Done, j: nat) {
    Placed(msgs, d.call.base + j) <==> d.res == Sent(j)
  }

  ghost predicate DoneMsg(msgs: seq<Msg>, d: Done, i: nat) {
    && d.call.base + |d.call.arms| <= |msgs|
    && (forall j :: 0 <= j < |d.call.arms| ==> ArmMsg(msgs, d.task, d.call, j) && DonePlaced(msgs, d, j))
    && ResFits(msgs, d.call, d.res)
    && (d.res.Took? ==> PlacedAt(msgs, d.res.msg, Out(i)))
  }

  /** A finished call came before the running one of the same task. */
  predicate DoneBefore(tasks: seq<Task>, d: Done) {
    && d.task < |tasks|
    && (InCall(tasks[d.task].pc) ==> d.call.base + |d.call.arms| <= tasks[d.task].call.base)
  }

  ghost predicate TaskMsgs(s: State, t: nat)
    requires t < |s.tasks|
  { HandMsg(s.msgs, s.tasks[t], t) && (InCall(s.tasks[t].pc) ==> CallMsgs(s.msgs, s.entries, s.tasks[t], t)) }

  ghost predicate Messages(s: State) {
    && (forall m :: 0 <= m < |s.msgs| ==> MsgOk(s, m))
    && (forall c :: 0 <= c < |s.chans| ==> ChanMsgs(s.msgs, s.chans[c], c))
    && (forall e :: 0 <= e < |s.entries| ==> SlotMsg(s.msgs, s.entries[e], e))
    && (forall t :: 0 <= t < |s.tasks| ==> TaskMsgs(s, t))
    && (forall i :: 0 <= i < |s.done| ==> DoneMsg(s.msgs, s.done[i], i) && DoneBefore(s.tasks, s.done[i]))
  }

  lemma MessagesInit(s: State)
    requires Init(s)
    ensures Messages(s)
  { }

  // ------------------------------------------------------------ elementary updates

  /** A task moves without touching a result or an outcome. */
  predicate Still(x: Task, y: Task) {
    && HasRes(x.pc) == HasRes(y.pc) && (HasRes(x.pc) ==> x.pc.res == y.pc.res)
    && InCall(y.pc) == InCall(x.pc) && (InCall(y.pc) ==> y.call == x.call)
    && Parked(x.pc) == Parked(y.pc) && (Parked(x.pc) ==> x.first == y.first)
  }

  lemma StillTask(s: State, t: nat, x: Task)
    requires Messages(s) && t < |s.tasks| && Still(s.tasks[t], x)
    ensures TaskMsgs(SetTask(s, t, x), t)
  {
    var y := s.tasks[t];
    assert TaskMsgs(s, t);
    if InCall(x.pc) {
      forall j | 0 <= j < |x.call.arms| ensures ArmPlaced(s.msgs, s.entries, x, j) {
        assert ArmPlaced(s.msgs, s.entries, y, j);
      }
    }
  }

  lemma MessagesTask(s: State, t: nat, x: Task)
    requires Messages(s) && t < |s.tasks| && Still(s.tasks[t], x)
    ensures Messages(SetTask(s, t, x))
  {
    var r := SetTask(s, t, x);
    StillTask(s, t, x);
    forall m | 0 <= m < |r.msgs| ensures MsgOk(r, m) { assert MsgOk(s, m); }
    forall u | 0 <= u < |r.tasks| ensures TaskMsgs(r, u) { if u != t { assert TaskMsgs(s, u); } }
    forall i | 0 <= i < |r.done| ensures DoneMsg(r.msgs, r.done[i], i) && DoneBefore(r.tasks, r.done[i]) {
      assert DoneMsg(s.msgs, s.done[i], i) && DoneBefore(s.tasks, s.done[i]);
    }
  }

  predicate SameFlow(x: Chan, y: Chan) {
    y.buf == x.buf && y.deq == x.deq && y.taken == x.taken && y.skipped == x.skipped
  }

  lemma MessagesChan(s: State, c: nat, x: Chan)
    requires Messages(s) && c < |s.chans| && SameFlow(s.chans[c], x)
    ensures Messages(SetChan(s, c, x))
  {
    var r := SetChan(s, c, x);
    forall m | 0 <= m < |r.msgs| ensures MsgOk(r, m) { assert MsgOk(s, m); }
    forall d | 0 <= d < |r.chans| ensures ChanMsgs(r.msgs, r.chans[d], d) { assert ChanMsgs(s.msgs, s.chans[d], d); }
    forall u | 0 <= u < |r.tasks| ensures TaskMsgs(r, u) { assert TaskMsgs(s, u); }
  }

  /** An entry's outcome is unchanged. */
  predicate SameOutcome(y: Entry, z: Entry) {
    && SameEntry(y, z) && z.ok == y.ok && z.slot == y.slot && (y.ok ==> Unread(z) == Unread(y)) && (y.woken ==> z.woken)
  }

  lemma OutcomeCall(msgs: seq<Msg>, entries: seq<Entry>, e: nat, z: Entry, x: Task, t: nat)
    requires CallMsgs(msgs, entries, x, t) && e < |entries| && (z.ok && z.put) == (entries[e].ok && entries[e].put)
    ensures CallMsgs(msgs, entries[e := z], x, t)
  {
    var es := entries[e := z];
    forall j | 0 <= j < |x.call.arms| ensures ArmPlaced(msgs, es, x, j) { assert ArmPlaced(msgs, entries, x, j); }
  }

  lemma MessagesEntry(s: State, e: nat, z: Entry)
    requires Messages(s) && e < |s.entries| && SameOutcome(s.entries[e], z)
    ensures Messages(SetEntry(s, e, z))
  {
    var r := SetEntry(s, e, z);
    forall m | 0 <= m < |r.msgs| ensures MsgOk(r, m) { assert MsgOk(s, m); }
    forall d | 0 <= d < |r.entries| ensures SlotMsg(r.msgs, r.entries[d], d) {
      assert SlotMsg(s.msgs, s.entries[d], d);
    }
    forall u | 0 <= u < |r.tasks| ensures TaskMsgs(r, u) {
      assert TaskMsgs(s, u);
      if InCall(s.tasks[u].pc) { OutcomeCall(s.msgs, s.entries, e, z, s.tasks[u], u); }
    }
  }

  lemma MessagesSame(s: State, r: State)
    requires Messages(s) && r == s.(fired := r.fired, pending := r.pending)
    ensures Messages(r)
  {
    forall m | 0 <= m < |r.msgs| ensures MsgOk(r, m) { assert MsgOk(s, m); }
    forall u | 0 <= u < |r.tasks| ensures TaskMsgs(r, u) { assert TaskMsgs(s, u); }
  }

  // ------------------------------------------------------------- moving a message

  function Moved(msgs: seq<Msg>, m: nat, q: Place): seq<Msg>
    requires m < |msgs|
  { msgs[m := msgs[m].(place := Some(q))] }

  /** What other calls know about their sends does not depend on where m goes. */
  lemma CallKept(msgs: seq<Msg>, m: nat, q: Place, entries: seq<Entry>, x: Task, t: nat, n: nat)
    requires m < |msgs| && CallMsgs(msgs, entries, x, t) && CallOk(n, msgs, t, x.call)
    requires Placed(msgs, m) || msgs[m].sender != t
    ensures CallMsgs(Moved(msgs, m, q), entries, x, t)
  {
    var ms := Moved(msgs, m, q);
    forall j | 0 <= j < |x.call.arms| ensures ArmPlaced(ms, entries, x, j) {
      assert ArmPlaced(msgs, entries, x, j) && ArmMsg(msgs, t, x.call, j);
    }
  }

  lemma DoneKept(msgs: seq<Msg>, m: nat, q: Place, d: Done, i: nat)
    requires m < |msgs| && DoneMsg(msgs, d, i) && msgs[m].place != Some(Out(i))
    requires Placed(msgs, m) || msgs[m].sender != d.task || m >= d.call.base + |d.call.arms|
    ensures DoneMsg(Moved(msgs, m, q), d, i)
  {
    var ms := Moved(msgs, m, q);
    forall j | 0 <= j < |d.call.arms| ensures ArmMsg(ms, d.task, d.call, j) && DonePlaced(ms, d, j) {
      assert ArmMsg(msgs, d.task, d.call, j) && DonePlaced(msgs, d, j);
    }
  }

  lemma OrderKept(msgs: seq<Msg>, m: nat, q: Place, flow: seq<nat>)
    requires m < |msgs| && InOrder(msgs, flow)
    ensures InOrder(Moved(msgs, m, q), flow)
  {
    var ms := Moved(msgs, m, q);
    forall i, j | 0 <= i < j < |flow| && SameSender(ms, flow[i], flow[j]) ensures flow[i] < flow[j] {
      assert SameSender(msgs, flow[i], flow[j]);
    }
  }

  lemma ChanKept(msgs: seq<Msg>, m: nat, q: Place, x: Chan, c: nat)
    requires m < |msgs| && ChanMsgs(msgs, x, c) && (Placed(msgs, m) ==> !q.InBuf?)
    requires forall i :: 0 <= i < |x.buf| ==> x.buf[i] != m
    ensures ChanMsgs(Moved(msgs, m, q), x, c)
  {
    var ms := Moved(msgs, m, q);
    forall i | 0 <= i < |x.buf| ensures CameBy(ms, x.buf[i], c, InBuf(c, x.taken + i)) {
      assert CameBy(msgs, x.buf[i], c, InBuf(c, x.taken + i));
    }
    forall i | 0 <= i < |x.deq| ensures Dequeued(ms, x.deq[i], c) { assert Dequeued(msgs, x.deq[i], c); }
    if !x.skipped { OrderKept(msgs, m, q, x.deq + x.buf); }
  }

  /** A message that is placed nowhere else is in no other buffer. */
  lemma NotBuffered(msgs: seq<Msg>, m: nat, x: Chan, c: nat)
    requires ChanMsgs(msgs, x, c) && m < |msgs|
    requires msgs[m].place.Some? && msgs[m].place.value.InBuf? ==> msgs[m].place.value.c != c
    ensures forall i :: 0 <= i < |x.buf| ==> x.buf[i] != m
  {
    forall i | 0 <= i < |x.buf| ensures x.buf[i] != m { assert CameBy(msgs, x.buf[i], c, InBuf(c, x.taken + i)); }
  }

  /** The parts of the invariant about places that the step does not write. */
  lemma Elsewhere(s: State, m: nat, q: Place)
    requires Shape(s) && Messages(s) && m < |s.msgs| && (Placed(s.msgs, m) ==> !q.InBuf?)
    requires s.msgs[m].place.Some? || (s.msgs[m].sender < |s.tasks| && InCall(s.tasks[s.msgs[m].sender].pc)
             && m >= s.tasks[s.msgs[m].sender].call.base)
    ensures forall d ::
              0 <= d < |s.chans| &&
              !(s.msgs[m].place.Some? && s.msgs[m].place.value.InBuf? && s.msgs[m].place.value.c == d) ==>
                ChanMsgs(Moved(s.msgs, m, q), s.chans[d], d)
    ensures forall e :: 0 <= e < |s.entries| && s.msgs[m].place != Some(InSlot(e)) ==>
              SlotMsg(Moved(s.msgs, m, q), s.entries[e], e)
    ensures forall u :: 0 <= u < |s.tasks| && s.msgs[m].place != Some(InHand(u)) ==>
              HandMsg(Moved(s.msgs, m, q), s.tasks[u], u)
    ensures forall i :: 0 <= i < |s.done| && s.msgs[m].place != Some(Out(i)) ==>
              DoneMsg(Moved(s.msgs, m, q), s.done[i], i)
  {
    var ms := Moved(s.msgs, m, q);
    forall d | 0 <= d < |s.chans| && !(s.msgs[m].place.Some? && s.msgs[m].place.value.InBuf?
        && s.msgs[m].place.value.c == d)
      ensures ChanMsgs(ms, s.chans[d], d)
    { NotBuffered(s.msgs, m, s.chans[d], d); ChanKept(s.msgs, m, q, s.chans[d], d); }
    forall e | 0 <= e < |s.entries| && s.msgs[m].place != Some(InSlot(e)) ensures SlotMsg(ms, s.entries[e], e) {
      assert SlotMsg(s.msgs, s.entries[e], e);
    }
    forall u | 0 <= u < |s.tasks| && s.msgs[m].place != Some(InHand(u)) ensures HandMsg(ms, s.tasks[u], u) {
      assert TaskMsgs(s, u);
    }
    forall i | 0 <= i < |s.done| && s.msgs[m].place != Some(Out(i)) ensures DoneMsg(ms, s.done[i], i) {
      assert DoneMsg(s.msgs, s.done[i], i) && DoneBefore(s.tasks, s.done[i]);
      DoneKept(s.msgs, m, q, s.done[i], i);
    }
  }

  lemma CallsElsewhere(s: State, m: nat, q: Place, u: nat)
    requires Shape(s) && Messages(s) && m < |s.msgs| && u < |s.tasks| && InCall(s.tasks[u].pc)
    requires Placed(s.msgs, m) || s.msgs[m].sender != u
    ensures CallMsgs(Moved(s.msgs, m, q), s.entries, s.tasks[u], u)
  {
    assert TaskShape(s, u) && TaskMsgs(s, u);
    CallKept(s.msgs, m, q, s.entries, s.tasks[u], u, |s.chans|);
  }

  lemma SameAccepted(msgs: seq<Msg>, entries: seq<Entry>, es: seq<Entry>, x: Task, y: Task, t: nat)
    requires CallMsgs(msgs, entries, x, t) && y.call == x.call
    requires forall j :: 0 <= j < |x.call.arms| ==> Accepted(es, y, j) == Accepted(entries, x, j)
    ensures CallMsgs(msgs, es, y, t)
  {
    forall j | 0 <= j < |y.call.arms| ensures ArmPlaced(msgs, es, y, j) { assert ArmPlaced(msgs, entries, x, j); }
  }

  /** Inside a call, with no result yet and not parked. */
  predicate Undecided(pc: PC) { InCall(pc) && !HasRes(pc) && !Parked(pc) }

  /** A call ends without sending or receiving. */
  lemma MessagesFail(s: State, t: nat, x: Task)
    requires Shape(s) && Messages(s) && t < |s.tasks| && Undecided(s.tasks[t].pc)
    requires x == s.tasks[t].(pc := x.pc, held := x.held) && HasRes(x.pc)
    requires !x.pc.res.Took? && !x.pc.res.Sent? && ResFits(s.msgs, x.call, x.pc.res)
    ensures Messages(SetTask(s, t, x))
  {
    var r := SetTask(s, t, x);
    assert TaskMsgs(s, t);
    SameAccepted(s.msgs, s.entries, s.entries, s.tasks[t], x, t);
    forall m | 0 <= m < |r.msgs| ensures MsgOk(r, m) { assert MsgOk(s, m); }
    forall u | 0 <= u < |r.tasks| ensures TaskMsgs(r, u) { if u != t { assert TaskMsgs(s, u); } }
    forall i | 0 <= i < |r.done| ensures DoneMsg(r.msgs, r.done[i], i) && DoneBefore(r.tasks, r.done[i]) {
      assert DoneMsg(s.msgs, s.done[i], i) && DoneBefore(s.tasks, s.done[i]);
    }
  }

  // ------------------------------------------------------------------- buffers

  lemma TakeChan(msgs: seq<Msg>, x: Chan, c: nat, q: Place)
    requires ChanMsgs(msgs, x, c) && x.buf != [] && x.buf[0] < |msgs| && !q.InBuf?
    ensures ChanMsgs(Moved(msgs, x.buf[0], q), x.(buf := x.buf[1..], deq := x.deq + [x.buf[0]], taken := x.taken + 1),
            c)
  {
    var m := x.buf[0]; var ms := Moved(msgs, m, q);
    var y := x.(buf := x.buf[1..], deq := x.deq + [m], taken := x.taken + 1);
    assert CameBy(msgs, m, c, InBuf(c, x.taken + 0));
    forall i | 0 <= i < |y.buf| ensures CameBy(ms, y.buf[i], c, InBuf(c, y.taken + i)) {
      assert CameBy(msgs, x.buf[i + 1], c, InBuf(c, x.taken + (i + 1)));
    }
    forall i | 0 <= i < |x.deq| ensures Dequeued(ms, x.deq[i], c) && x.deq[i] != m {
      assert Dequeued(msgs, x.deq[i], c);
    }
    if !x.skipped {
      assert y.deq + y.buf == x.deq + x.buf;
      OrderKept(msgs, m, q, x.deq + x.buf);
    }
  }

  lemma MessagesTakeBuffer(s: State, t: nat, k: nat, c: nat)
    requires Shape(s) && Messages(s) && t < |s.tasks| && Undecided(s.tasks[t].pc)
    requires k < |s.tasks[t].call.arms| && s.tasks[t].call.arms[k] == Arm(c, false)
    requires c < |s.chans| && s.chans[c].buf != [] && s.chans[c].buf[0] < |s.msgs|
    ensures Messages(TakeBuffer(s, t, k, c))
  {
    var r := TakeBuffer(s, t, k, c); var m := s.chans[c].buf[0]; var q := InHand(t);
    assert ChanMsgs(s.msgs, s.chans[c], c);
    assert CameBy(s.msgs, m, c, InBuf(c, s.chans[c].taken + 0));
    Elsewhere(s, m, q);
    TakeChan(s.msgs, s.chans[c], c, q);
    forall n | 0 <= n < |r.msgs| ensures MsgOk(r, n) { TakeMsg(s, t, k, c, n); }
    forall u | 0 <= u < |r.tasks| ensures TaskMsgs(r, u) {
      if InCall(s.tasks[u].pc) { CallsElsewhere(s, m, q, u); }
      if u == t { SameAccepted(r.msgs, s.entries, s.entries, s.tasks[t], r.tasks[t], t); }
    }
    forall i | 0 <= i < |r.done| ensures DoneMsg(r.msgs, r.done[i], i) && DoneBefore(r.tasks, r.done[i]) {
      assert DoneBefore(s.tasks, s.done[i]);
    }
  }

  lemma TakeMsg(s: State, t: nat, k: nat, c: nat, n: nat)
    requires Messages(s) && t < |s.tasks| && Undecided(s.tasks[t].pc) && c < |s.chans| && s.chans[c].buf != []
             && s.chans[c].buf[0] < |s.msgs|
    requires n < |s.msgs| && ChanMsgs(s.msgs, s.chans[c], c)
    ensures MsgOk(TakeBuffer(s, t, k, c), n)
  {
    assert MsgOk(s, n);
    assert CameBy(s.msgs, s.chans[c].buf[0], c, InBuf(c, s.chans[c].taken + 0));
  }

  // ------------------------------------------------------ accepting a message

  /** A message of a running call that has not accepted any is later than all that were. */
  lemma FreshLast(s: State, t: nat, k: nat, flow: seq<nat>, c: nat)
    requires Shape(s) && Messages(s) && t < |s.tasks| && InCall(s.tasks[t].pc) && k < |s.tasks[t].call.arms|
             && c < |s.chans|
    requires forall j :: 0 <= j < |s.tasks[t].call.arms| ==> !Accepted(s.entries, s.tasks[t], j)
    requires InOrder(s.msgs, flow) && forall i :: 0 <= i < |flow| ==> Placed(s.msgs, flow[i])
    ensures InOrder(s.msgs, flow + [s.tasks[t].call.base + k])
  {
    var call := s.tasks[t].call; var m := call.base + k; var all := flow + [m];
    assert TaskMsgs(s, t) && TaskShape(s, t) && ArmMsg(s.msgs, t, call, k);
    forall i, j | 0 <= i < j < |all| && SameSender(s.msgs, all[i], all[j]) ensures all[i] < all[j] {
      if j < |flow| { assert SameSender(s.msgs, flow[i], flow[j]); }
      else if flow[i] >= call.base { assert ArmPlaced(s.msgs, s.entries, s.tasks[t], flow[i] - call.base); }
    }
  }

  lemma FlowPlaced(msgs: seq<Msg>, x: Chan, c: nat)
    requires ChanMsgs(msgs, x, c)
    ensures forall i :: 0 <= i < |x.deq + x.buf| ==> Placed(msgs, (x.deq + x.buf)[i])
  {
    forall i | 0 <= i < |x.deq + x.buf| ensures Placed(msgs, (x.deq + x.buf)[i]) {
      if i < |x.deq| { assert Dequeued(msgs, x.deq[i], c); }
      else { assert CameBy(msgs, x.buf[i - |x.deq|], c, InBuf(c, x.taken + (i - |x.deq|))); }
    }
  }

  /** The running call's arm k is the only one whose message becomes placed. */
  lemma AcceptCall(s: State, t: nat, k: nat, q: Place, es: seq<Entry>, y: Task)
    requires Shape(s) && Messages(s) && t < |s.tasks| && InCall(s.tasks[t].pc) && k < |s.tasks[t].call.arms|
    requires s.tasks[t].call.base + k < |s.msgs| && y.call == s.tasks[t].call
    requires forall j :: 0 <= j < |y.call.arms| ==> !Accepted(s.entries, s.tasks[t], j)
    requires forall j :: 0 <= j < |y.call.arms| ==> (Accepted(es, y, j) <==> j == k)
    ensures CallMsgs(Moved(s.msgs, s.tasks[t].call.base + k, q), es, y, t)
  {
    var m := y.call.base + k; var ms := Moved(s.msgs, m, q);
    assert TaskMsgs(s, t);
    forall j | 0 <= j < |y.call.arms| ensures ArmPlaced(ms, es, y, j) {
      assert ArmPlaced(s.msgs, s.entries, s.tasks[t], j);
    }
  }

  lemma PutChan(s: State, t: nat, k: nat, c: nat)
    requires Shape(s) && Messages(s) && t < |s.tasks| && Undecided(s.tasks[t].pc) && c < |s.chans|
    requires k < |s.tasks[t].call.arms| && s.tasks[t].call.arms[k] == Arm(c, true)
             && s.tasks[t].call.base + k < |s.msgs|
    ensures ChanMsgs(PutBuffer(s, t, k, c).msgs, PutBuffer(s, t, k, c).chans[c], c)
  {
    var r := PutBuffer(s, t, k, c); var x := s.chans[c]; var y := r.chans[c]; var m := s.tasks[t].call.base + k;
    var q := InBuf(c, x.taken + |x.buf|);
    assert TaskMsgs(s, t) && TaskShape(s, t) && ArmMsg(s.msgs, t, s.tasks[t].call, k);
    assert ArmPlaced(s.msgs, s.entries, s.tasks[t], k);
    assert ChanMsgs(s.msgs, x, c);
    NotBuffered(s.msgs, m, x, c);
    ChanKept(s.msgs, m, q, x, c);
    forall i | 0 <= i < |y.buf| ensures CameBy(r.msgs, y.buf[i], c, InBuf(c, y.taken + i)) {
      if i < |x.buf| { assert CameBy(r.msgs, x.buf[i], c, InBuf(c, x.taken + i)); }
    }
    if !y.skipped {
      PutOrder(s, t, k, c, q);
      assert y.deq + y.buf == x.deq + x.buf + [m];
    }
  }

  /** A message buffered behind the others keeps the order. */
  lemma PutOrder(s: State, t: nat, k: nat, c: nat, q: Place)
    requires Shape(s) && Messages(s) && t < |s.tasks| && Undecided(s.tasks[t].pc) && c < |s.chans|
             && !s.chans[c].skipped
    requires k < |s.tasks[t].call.arms| && s.tasks[t].call.base + k < |s.msgs|
    ensures var m := s.tasks[t].call.base + k; InOrder(Moved(s.msgs, m, q), s.chans[c].deq + s.chans[c].buf + [m])
  {
    var x := s.chans[c]; var m := s.tasks[t].call.base + k;
    assert ChanMsgs(s.msgs, x, c);
    FlowPlaced(s.msgs, x, c);
    FreshLast(s, t, k, x.deq + x.buf, c);
    OrderKept(s.msgs, m, q, x.deq + x.buf + [m]);
  }

  lemma PutMsg(s: State, t: nat, k: nat, c: nat, n: nat)
    requires Messages(s) && t < |s.tasks| && Undecided(s.tasks[t].pc) && c < |s.chans| && n < |s.msgs|
    requires s.tasks[t].call.base + k < |s.msgs|
             && (n == s.tasks[t].call.base + k ==> s.msgs[n].put && s.msgs[n].ch == c)
    ensures MsgOk(PutBuffer(s, t, k, c), n)
  { assert MsgOk(s, n); }

  lemma PutTask(s: State, t: nat, k: nat, c: nat, u: nat)
    requires Shape(s) && Messages(s) && t < |s.tasks| && Undecided(s.tasks[t].pc) && c < |s.chans| && u < |s.tasks|
    requires k < |s.tasks[t].call.arms| && s.tasks[t].call.arms[k] == Arm(c, true)
             && s.tasks[t].call.base + k < |s.msgs|
    ensures TaskMsgs(PutBuffer(s, t, k, c), u)
  {
    var r := PutBuffer(s, t, k, c); var m := s.tasks[t].call.base + k;
    var q := InBuf(c, s.chans[c].taken + |s.chans[c].buf|);
    assert TaskMsgs(s, t) && TaskMsgs(s, u) && TaskShape(s, t) && ArmMsg(s.msgs, t, s.tasks[t].call, k);
    assert ArmPlaced(s.msgs, s.entries, s.tasks[t], k);
    Elsewhere(s, m, q);
    if u == t { AcceptCall(s, t, k, q, s.entries, r.tasks[t]); }
    else if InCall(s.tasks[u].pc) { CallsElsewhere(s, m, q, u); }
  }

  ghost predicate ChansAndDone(s: State) {
    && (forall c :: 0 <= c < |s.chans| ==> ChanMsgs(s.msgs, s.chans[c], c))
    && (forall e :: 0 <= e < |s.entries| ==> SlotMsg(s.msgs, s.entries[e], e))
    && (forall i :: 0 <= i < |s.done| ==> DoneMsg(s.msgs, s.done[i], i) && DoneBefore(s.tasks, s.done[i]))
  }

  /** The message of an arm of an undecided call is nowhere yet. */
  lemma ArmFresh(s: State, t: nat, k: nat)
    requires Shape(s) && Messages(s) && t < |s.tasks| && Undecided(s.tasks[t].pc)
    requires k < |s.tasks[t].call.arms| && s.tasks[t].call.base + k < |s.msgs|
    ensures var m := s.tasks[t].call.base + k; var a := s.tasks[t].call.arms[k];
            s.msgs[m].place.None? && s.msgs[m].sender == t && s.msgs[m].ch == a.ch && s.msgs[m].put == a.put
  {
    assert TaskMsgs(s, t) && TaskShape(s, t) && ArmMsg(s.msgs, t, s.tasks[t].call, k);
    assert ArmPlaced(s.msgs, s.entries, s.tasks[t], k);
  }

  lemma PutElse(s: State, t: nat, k: nat, c: nat)
    requires Shape(s) && Messages(s) && t < |s.tasks| && Undecided(s.tasks[t].pc) && c < |s.chans|
    requires k < |s.tasks[t].call.arms| && s.tasks[t].call.arms[k] == Arm(c, true)
             && s.tasks[t].call.base + k < |s.msgs|
    ensures ChansAndDone(PutBuffer(s, t, k, c))
  {
    var r := PutBuffer(s, t, k, c); var m := s.tasks[t].call.base + k;
    ArmFresh(s, t, k);
    Elsewhere(s, m, InBuf(c, s.chans[c].taken + |s.chans[c].buf|));
    PutChan(s, t, k, c);
    forall i | 0 <= i < |r.done| ensures DoneBefore(r.tasks, r.done[i]) { assert DoneBefore(s.tasks, s.done[i]); }
  }

  lemma MessagesPutBuffer(s: State, t: nat, k: nat, c: nat)
    requires Shape(s) && Messages(s) && t < |s.tasks| && Undecided(s.tasks[t].pc) && c < |s.chans|
    requires k < |s.tasks[t].call.arms| && s.tasks[t].call.arms[k] == Arm(c, true)
             && s.tasks[t].call.base + k < |s.msgs|
    ensures Messages(PutBuffer(s, t, k, c))
  {
    var r := PutBuffer(s, t, k, c);
    assert TaskShape(s, t) && ArmMsg(s.msgs, t, s.tasks[t].call, k);
    PutElse(s, t, k, c);
    forall n | 0 <= n < |r.msgs| ensures MsgOk(r, n) { PutMsg(s, t, k, c, n); }
    forall u | 0 <= u < |r.tasks| ensures TaskMsgs(r, u) { PutTask(s, t, k, c, u); }
  }

  // --------------------------------------------------------------- direct hand-over

  /** A message that skips the empty buffer. */
  lemma DirectChan(s: State, t: nat, k: nat, c: nat, q: Place, y: Chan)
    requires Shape(s) && Messages(s) && t < |s.tasks| && InCall(s.tasks[t].pc) && c < |s.chans| && !q.InBuf?
    requires k < |s.tasks[t].call.arms| && s.tasks[t].call.arms[k] == Arm(c, true)
             && s.tasks[t].call.base + k < |s.msgs|
    requires forall j :: 0 <= j < |s.tasks[t].call.arms| ==> !Accepted(s.entries, s.tasks[t], j)
    requires !y.skipped ==> s.chans[c].buf == []
    requires y.buf == s.chans[c].buf && y.taken == s.chans[c].taken && y.skipped == s.chans[c].skipped
    requires y.deq == s.chans[c].deq + [s.tasks[t].call.base + k]
    ensures ChanMsgs(Moved(s.msgs, s.tasks[t].call.base + k, q), y, c)
  {
    var x := s.chans[c]; var m := s.tasks[t].call.base + k; var ms := Moved(s.msgs, m, q);
    assert TaskMsgs(s, t) && TaskShape(s, t) && ArmMsg(s.msgs, t, s.tasks[t].call, k);
    assert ArmPlaced(s.msgs, s.entries, s.tasks[t], k);
    assert ChanMsgs(s.msgs, x, c);
    NotBuffered(s.msgs, m, x, c);
    ChanKept(s.msgs, m, q, x, c);
    forall i | 0 <= i < |x.deq| ensures x.deq[i] != m { assert Dequeued(s.msgs, x.deq[i], c); }
    if !y.skipped {
      FlowPlaced(s.msgs, x, c);
      assert x.deq + x.buf == x.deq;
      FreshLast(s, t, k, x.deq, c);
      assert y.deq + y.buf == x.deq + [m];
      OrderKept(s.msgs, m, q, y.deq + y.buf);
    }
  }

  ghost predicate CanSend(s: State, t: nat, k: nat, c: nat, e: nat) {
    && t < |s.tasks| && Undecided(s.tasks[t].pc) && c < |s.chans|
    && k < |s.tasks[t].call.arms| && s.tasks[t].call.arms[k] == Arm(c, true) && s.tasks[t].call.base + k < |s.msgs|
    && e < |s.entries| && s.entries[e].ch == c && !s.entries[e].put && s.entries[e].stage.Firing? && !s.entries[e].ok
    && (!s.chans[c].skipped ==> s.chans[c].buf == [])
  }

  /** The state after arm k of t handed its message to the parked taker e. */
  function Handed(s: State, t: nat, x: Task, k: nat, c: nat, y: Chan, e: nat): State
    requires t < |s.tasks| && c < |s.chans| && e < |s.entries| && s.tasks[t].call.base + k < |s.msgs|
  {
    var m := s.tasks[t].call.base + k;
    SetPlace(SetEntry(SetChan(SetTask(s, t, x), c, y), e,
                      s.entries[e].(woken := true, ok := true, stage := Owed(t), slot := Some(m))), m, InSlot(e))
  }

  predicate SentNow(s: Task, x: Task, k: nat) {
    x == s.(pc := x.pc, owed := x.owed) && HasRes(x.pc) && x.pc.res == Sent(k)
  }

  predicate PassedOn(x: Chan, y: Chan, m: nat) {
    y.buf == x.buf && y.taken == x.taken && y.skipped == x.skipped && y.deq == x.deq + [m]
  }

  lemma HandedMsg(s: State, t: nat, x: Task, k: nat, c: nat, y: Chan, e: nat, n: nat)
    requires Messages(s) && CanSend(s, t, k, c, e) && SentNow(s.tasks[t], x, k)
             && PassedOn(s.chans[c], y, s.tasks[t].call.base + k)
    requires n < |s.msgs| && (n == s.tasks[t].call.base + k ==> s.msgs[n].put && s.msgs[n].ch == c)
    ensures MsgOk(Handed(s, t, x, k, c, y, e), n)
  { assert MsgOk(s, n); }

  lemma HandedChans(s: State, t: nat, x: Task, k: nat, c: nat, y: Chan, e: nat)
    requires Shape(s) && Messages(s) && CanSend(s, t, k, c, e) && SentNow(s.tasks[t], x, k)
    requires PassedOn(s.chans[c], y, s.tasks[t].call.base + k)
    ensures var r := Handed(s, t, x, k, c, y, e); forall d :: 0 <= d < |r.chans| ==> ChanMsgs(r.msgs, r.chans[d], d)
  {
    ArmFresh(s, t, k);
    Elsewhere(s, s.tasks[t].call.base + k, InSlot(e));
    DirectChan(s, t, k, c, InSlot(e), y);
  }

  lemma HandedElse(s: State, t: nat, x: Task, k: nat, c: nat, y: Chan, e: nat)
    requires Shape(s) && Messages(s) && CanSend(s, t, k, c, e) && SentNow(s.tasks[t], x, k)
    requires PassedOn(s.chans[c], y, s.tasks[t].call.base + k)
    ensures ChansAndDone(Handed(s, t, x, k, c, y, e))
  {
    var r := Handed(s, t, x, k, c, y, e);
    HandedChans(s, t, x, k, c, y, e);
    ArmFresh(s, t, k);
    Elsewhere(s, s.tasks[t].call.base + k, InSlot(e));
    forall i | 0 <= i < |r.done| ensures DoneBefore(r.tasks, r.done[i]) { assert DoneBefore(s.tasks, s.done[i]); }
  }

  lemma HandedTask(s: State, t: nat, x: Task, k: nat, c: nat, y: Chan, e: nat, u: nat)
    requires Shape(s) && Messages(s) && CanSend(s, t, k, c, e) && SentNow(s.tasks[t], x, k) && u < |s.tasks|
    requires PassedOn(s.chans[c], y, s.tasks[t].call.base + k)
    ensures TaskMsgs(Handed(s, t, x, k, c, y, e), u)
  {
    var r := Handed(s, t, x, k, c, y, e); var m := s.tasks[t].call.base + k; var q := InSlot(e);
    assert TaskMsgs(s, t) && TaskMsgs(s, u) && TaskShape(s, t) && ArmMsg(s.msgs, t, s.tasks[t].call, k);
    assert ArmPlaced(s.msgs, s.entries, s.tasks[t], k);
    Elsewhere(s, m, q);
    if u == t { AcceptCall(s, t, k, q, r.entries, x); }
    else if InCall(s.tasks[u].pc) {
      CallsElsewhere(s, m, q, u);
      OutcomeCall(r.msgs, s.entries, e, r.entries[e], s.tasks[u], u);
    }
  }

  lemma MessagesHanded(s: State, t: nat, x: Task, k: nat, c: nat, y: Chan, e: nat)
    requires Shape(s) && Messages(s) && CanSend(s, t, k, c, e) && SentNow(s.tasks[t], x, k)
    requires PassedOn(s.chans[c], y, s.tasks[t].call.base + k)
    ensures Messages(Handed(s, t, x, k, c, y, e))
  {
    var r := Handed(s, t, x, k, c, y, e);
    assert TaskShape(s, t) && ArmMsg(s.msgs, t, s.tasks[t].call, k);
    HandedElse(s, t, x, k, c, y, e);
    forall n | 0 <= n < |r.msgs| ensures MsgOk(r, n) { HandedMsg(s, t, x, k, c, y, e, n); }
    forall u | 0 <= u < |r.tasks| ensures TaskMsgs(r, u) { HandedTask(s, t, x, k, c, y, e, u); }
  }

  // ------------------------------------------------------- taking from a parked put

  /** Until the candidate of a park is woken successfully, the park has sent nothing. */
  lemma NoneAccepted(s: State, e: nat)
    requires Shape(s) && Claims(s) && Messages(s) && e < |s.entries| && s.entries[e].stage.Firing?
    ensures s.entries[e].owner < |s.tasks|
    ensures var o := s.entries[e].owner; var x := s.tasks[o];
            && InPark(x, e) && forall j :: 0 <= j < |x.call.arms| ==> !Accepted(s.entries, x, j)
  {
    assert EntryClaim(s, e);
    var o := s.entries[e].owner; var x := s.tasks[o];
    assert TaskClaim(s, o);
    ClaimedIsCandidate(s, e);
    forall j | 0 <= j < |x.call.arms| ensures !Accepted(s.entries, x, j) {
      var d := x.first + j;
      assert ArmEntry(s.entries, o, x.call, x.first, x.sel, j);
      assert EntryClaim(s, d) && SlotMsg(s.msgs, s.entries[d], d);
      if !s.entries[d].stage.Waiting? { ClaimedIsCandidate(s, d); }
    }
  }

  ghost predicate CanTake(s: State, t: nat, k: nat, c: nat, e: nat) {
    && t < |s.tasks| && Undecided(s.tasks[t].pc) && c < |s.chans|
    && k < |s.tasks[t].call.arms| && s.tasks[t].call.arms[k] == Arm(c, false)
    && e < |s.entries| && s.entries[e].ch == c && s.entries[e].put && s.entries[e].stage.Firing? && !s.entries[e].ok
    && s.entries[e].msg < |s.msgs| && s.chans[c].buf == []
  }

  /** The state after arm k of t took the message of the parked putter e. */
  function Received(s: State, t: nat, x: Task, c: nat, y: Chan, e: nat): State
    requires t < |s.tasks| && c < |s.chans| && e < |s.entries| && s.entries[e].msg < |s.msgs|
  {
    SetPlace(SetEntry(SetChan(SetTask(s, t, x), c, y), e,
                      s.entries[e].(woken := true, ok := true, stage := Owed(t), slot := None)), s.entries[e].msg,
                          InHand(t))
  }

  predicate TookNow(s: Task, x: Task, k: nat, m: nat) {
    x == s.(pc := x.pc, owed := x.owed) && HasRes(x.pc) && x.pc.res == Took(k, m)
  }

  lemma ReceivedMsg(s: State, t: nat, x: Task, k: nat, c: nat, y: Chan, e: nat, n: nat)
    requires Messages(s) && CanTake(s, t, k, c, e) && TookNow(s.tasks[t], x, k, s.entries[e].msg)
             && PassedOn(s.chans[c], y, s.entries[e].msg)
    requires n < |s.msgs| && (n == s.entries[e].msg ==> s.msgs[n].put && s.msgs[n].ch == c)
    ensures MsgOk(Received(s, t, x, c, y, e), n)
  { assert MsgOk(s, n); }

  /** A task whose park does not contain e sees no change of its sends. */
  lemma OtherPark(s: State, e: nat, z: Entry, u: nat, msgs: seq<Msg>)
    requires Claims(s) && e < |s.entries| && u < |s.tasks| && u != s.entries[e].owner
    requires CallMsgs(msgs, s.entries, s.tasks[u], u)
    ensures CallMsgs(msgs, s.entries[e := z], s.tasks[u], u)
  {
    var x := s.tasks[u];
    assert TaskClaim(s, u);
    forall j | 0 <= j < |x.call.arms| ensures Accepted(s.entries[e := z], x, j) == Accepted(s.entries, x, j) {
      if Parked(x.pc) { assert ArmEntry(s.entries, u, x.call, x.first, x.sel, j); }
    }
    SameAccepted(msgs, s.entries, s.entries[e := z], x, x, u);
  }

  lemma ReceivedTask(s: State, t: nat, x: Task, k: nat, c: nat, y: Chan, e: nat, u: nat)
    requires Shape(s) && Claims(s) && Messages(s) && CanTake(s, t, k, c, e)
             && TookNow(s.tasks[t], x, k, s.entries[e].msg)
    requires u < |s.tasks| && InCall(s.tasks[u].pc) && s.msgs[s.entries[e].msg].sender == s.entries[e].owner
    requires s.entries[e].owner != t
    ensures var r := Received(s, t, x, c, y, e); CallMsgs(r.msgs, r.entries, r.tasks[u], u)
  {
    var r := Received(s, t, x, c, y, e); var m := s.entries[e].msg; var q := InHand(t); var z := r.entries[e];
    var o := z.owner;
    if u == o {
      var w := s.tasks[o];
      NoneAccepted(s, e);
      assert TaskClaim(s, o) && ArmEntry(s.entries, o, w.call, w.first, w.sel, e - w.first);
      forall j | 0 <= j < |w.call.arms| ensures Accepted(r.entries, w, j) <==> j == e - w.first {
        assert !Accepted(s.entries, w, j);
      }
      AcceptCall(s, o, e - w.first, q, r.entries, w);
    } else {
      CallsElsewhere(s, m, q, u);
      OtherPark(s, e, z, u, r.msgs);
      if u == t { SameAccepted(r.msgs, r.entries, r.entries, s.tasks[t], x, t); }
    }
  }

  lemma ReceivedChan(s: State, t: nat, x: Task, k: nat, c: nat, y: Chan, e: nat)
    requires Shape(s) && Claims(s) && Messages(s) && CanTake(s, t, k, c, e)
             && TookNow(s.tasks[t], x, k, s.entries[e].msg)
    requires PassedOn(s.chans[c], y, s.entries[e].msg)
    ensures ChanMsgs(Received(s, t, x, c, y, e).msgs, y, c)
  {
    NoneAccepted(s, e);
    var o := s.entries[e].owner; var w := s.tasks[o];
    assert EntryShape(s, e) && TaskClaim(s, o) && TaskMsgs(s, o);
    assert ArmEntry(s.entries, o, w.call, w.first, w.sel, e - w.first);
    DirectChan(s, o, e - w.first, c, InHand(t), y);
  }

  /** The message of a parked putter is nowhere yet. */
  lemma PutterFresh(s: State, t: nat, k: nat, c: nat, e: nat)
    requires Shape(s) && Claims(s) && Messages(s) && CanTake(s, t, k, c, e)
    ensures var m := s.entries[e].msg; var o := s.msgs[m].sender;
            s.msgs[m].place.None? && o < |s.tasks| && InCall(s.tasks[o].pc) && m >= s.tasks[o].call.base
  {
    NoneAccepted(s, e);
    var o := s.entries[e].owner; var w := s.tasks[o];
    assert EntryShape(s, e) && TaskClaim(s, o) && TaskMsgs(s, o);
    assert ArmEntry(s.entries, o, w.call, w.first, w.sel, e - w.first) && ArmPlaced(s.msgs, s.entries, w, e - w.first);
  }

  lemma ReceivedElse(s: State, t: nat, x: Task, k: nat, c: nat, y: Chan, e: nat)
    requires Shape(s) && Claims(s) && Messages(s) && CanTake(s, t, k, c, e)
             && TookNow(s.tasks[t], x, k, s.entries[e].msg)
    requires PassedOn(s.chans[c], y, s.entries[e].msg)
    ensures ChansAndDone(Received(s, t, x, c, y, e))
  {
    var r := Received(s, t, x, c, y, e);
    PutterFresh(s, t, k, c, e);
    Elsewhere(s, s.entries[e].msg, InHand(t));
    ReceivedChan(s, t, x, k, c, y, e);
    forall i | 0 <= i < |r.done| ensures DoneBefore(r.tasks, r.done[i]) { assert DoneBefore(s.tasks, s.done[i]); }
  }

  lemma ReceivedHand(s: State, t: nat, x: Task, k: nat, c: nat, y: Chan, e: nat, u: nat)
    requires Shape(s) && Claims(s) && Messages(s) && CanTake(s, t, k, c, e)
             && TookNow(s.tasks[t], x, k, s.entries[e].msg)
    requires u < |s.tasks|
    ensures HandMsg(Received(s, t, x, c, y, e).msgs, Received(s, t, x, c, y, e).tasks[u], u)
  {
    PutterFresh(s, t, k, c, e);
    Elsewhere(s, s.entries[e].msg, InHand(t));
    assert EntryShape(s, e);
  }

  lemma MessagesReceived(s: State, t: nat, x: Task, k: nat, c: nat, y: Chan, e: nat)
    requires Shape(s) && Claims(s) && Messages(s) && CanTake(s, t, k, c, e)
             && TookNow(s.tasks[t], x, k, s.entries[e].msg)
    requires PassedOn(s.chans[c], y, s.entries[e].msg)
    ensures Messages(Received(s, t, x, c, y, e))
  {
    var r := Received(s, t, x, c, y, e);
    NoneAccepted(s, e);
    assert EntryShape(s, e);
    ReceivedElse(s, t, x, k, c, y, e);
    forall n | 0 <= n < |r.msgs| ensures MsgOk(r, n) { ReceivedMsg(s, t, x, k, c, y, e, n); }
    forall u | 0 <= u < |r.tasks| ensures TaskMsgs(r, u) {
      ReceivedHand(s, t, x, k, c, y, e, u);
      if InCall(s.tasks[u].pc) { ReceivedTask(s, t, x, k, c, y, e, u); }
    }
  }

  // --------------------------------------------------------- reading the outcome

  /** The park's outcome is its candidate's. */
  lemma OutcomeAccepted(s: State, t: nat, e: nat, x: Task)
    requires Shape(s) && Claims(s) && Messages(s) && t < |s.tasks| && Parked(s.tasks[t].pc)
    requires Candidate(s.fired, s.tasks[t]) == Some(e) && e < |s.entries|
    requires x.call == s.tasks[t].call && x.pc.Return?
    requires s.tasks[t].first <= e && (x.pc.res == Sent(e - s.tasks[t].first) <==> s.entries[e].ok && s.entries[e].put)
    requires x.pc.res.Sent? ==> x.pc.res.arm == e - s.tasks[t].first
    ensures forall j :: 0 <= j < |x.call.arms| ==> Accepted(s.entries, x, j) == Accepted(s.entries, s.tasks[t], j)
  {
    var y := s.tasks[t];
    assert TaskClaim(s, t);
    forall j | 0 <= j < |x.call.arms| ensures Accepted(s.entries, x, j) == Accepted(s.entries, y, j) {
      var d := y.first + j;
      assert ArmEntry(s.entries, t, y.call, y.first, y.sel, j);
      assert EntryClaim(s, d) && SlotMsg(s.msgs, s.entries[d], d);
      if d != e && !s.entries[d].stage.Waiting? { ClaimedIsCandidate(s, d); }
    }
  }

  lemma FinishMsg(s: State, t: nat, x: Task, e: nat, n: nat)
    requires Messages(s) && t < |s.tasks| && !HasRes(s.tasks[t].pc) && FinishOk(s, x.first, e) && n < |s.msgs|
             && Unread(s.entries[e])
    ensures MsgOk(Finish(s, t, x, e), n)
  { assert MsgOk(s, n) && SlotMsg(s.msgs, s.entries[e], e); }

  /** The result that Finish reads out of entry e. */
  function Outcome(y: Entry, k: nat): Res
    requires y.ok && !y.put ==> y.slot.Some?
  { if !y.ok then ClosedAt(k) else if y.put then Sent(k) else Took(k, y.slot.value) }

  lemma FinishTask(s: State, t: nat, x: Task, e: nat, u: nat)
    requires Shape(s) && Claims(s) && Messages(s) && t < |s.tasks| && Parked(s.tasks[t].pc) && FinishOk(s, x.first, e)
    requires Candidate(s.fired, s.tasks[t]) == Some(e) && IsPosted(s.entries, Some(e)) && InPark(s.tasks[t], e)
    requires x == s.tasks[t].(parked := 0, queued := 0, sem := 0) && u < |s.tasks| && InCall(s.tasks[u].pc)
    ensures CallMsgs(Finish(s, t, x, e).msgs, Finish(s, t, x, e).entries, Finish(s, t, x, e).tasks[u], u)
  {
    var r := Finish(s, t, x, e); var z := r.entries[e]; var y := s.entries[e];
    assert TaskMsgs(s, u) && SlotMsg(s.msgs, y, e);
    if u == t {
      OutcomeAccepted(s, t, e, r.tasks[t]);
      SameAccepted(s.msgs, s.entries, s.entries, s.tasks[t], r.tasks[t], t);
    }
    OutcomeCall(s.msgs, s.entries, e, z, r.tasks[u], u);
    if y.ok && !y.put {
      assert TaskShape(s, u);
      CallKept(s.msgs, y.slot.value, InHand(t), r.entries, r.tasks[u], u, |s.chans|);
    }
  }

  lemma FinishHand(s: State, t: nat, x: Task, e: nat, u: nat)
    requires Messages(s) && t < |s.tasks| && FinishOk(s, x.first, e) && IsPosted(s.entries, Some(e))
    requires e - x.first < |x.call.arms| && s.entries[e].put == x.call.arms[e - x.first].put
             && s.entries[e].ch == x.call.arms[e - x.first].ch
    requires u < |s.tasks|
    ensures HandMsg(Finish(s, t, x, e).msgs, Finish(s, t, x, e).tasks[u], u)
  {
    assert TaskMsgs(s, u) && SlotMsg(s.msgs, s.entries[e], e);
  }

  lemma FinishElse(s: State, t: nat, x: Task, e: nat)
    requires Shape(s) && Claims(s) && Messages(s) && t < |s.tasks| && Parked(s.tasks[t].pc) && FinishOk(s, x.first, e)
    requires Candidate(s.fired, s.tasks[t]) == Some(e) && IsPosted(s.entries, Some(e))
    requires x == s.tasks[t].(parked := 0, queued := 0, sem := 0)
    ensures ChansAndDone(Finish(s, t, x, e))
  {
    var r := Finish(s, t, x, e); var y := s.entries[e];
    CandidateInPark(s, t);
    assert TaskClaim(s, t) && SlotMsg(s.msgs, y, e);
    if y.ok && !y.put { Elsewhere(s, y.slot.value, InHand(t)); }
    forall d | 0 <= d < |r.entries| ensures SlotMsg(r.msgs, r.entries[d], d) {
      assert SlotMsg(s.msgs, s.entries[d], d);
    }
    forall i | 0 <= i < |r.done| ensures DoneMsg(r.msgs, r.done[i], i) && DoneBefore(r.tasks, r.done[i]) {
      assert DoneMsg(s.msgs, s.done[i], i) && DoneBefore(s.tasks, s.done[i]);
    }
  }

  lemma MessagesFinish(s: State, t: nat, x: Task, e: nat)
    requires Shape(s) && Claims(s) && Messages(s) && t < |s.tasks| && Parked(s.tasks[t].pc) && FinishOk(s, x.first, e)
    requires Candidate(s.fired, s.tasks[t]) == Some(e) && IsPosted(s.entries, Some(e))
    requires x == s.tasks[t].(parked := 0, queued := 0, sem := 0)
    ensures Messages(Finish(s, t, x, e))
  {
    var r := Finish(s, t, x, e); var y := s.entries[e];
    CandidateInPark(s, t);
    assert TaskClaim(s, t) && SlotMsg(s.msgs, y, e) && TaskMsgs(s, t);
    assert ArmEntry(s.entries, t, x.call, x.first, x.sel, e - x.first);
    FinishElse(s, t, x, e);
    forall n | 0 <= n < |r.msgs| ensures MsgOk(r, n) { FinishMsg(s, t, x, e, n); }
    forall u | 0 <= u < |r.tasks| ensures TaskMsgs(r, u) {
      FinishHand(s, t, x, e, u);
      if InCall(s.tasks[u].pc) { FinishTask(s, t, x, e, u); }
    }
  }

  // ----------------------------------------------------------------- returning

  lemma ReturnMsg(s: State, t: nat, n: nat)
    requires Messages(s) && t < |s.tasks| && s.tasks[t].pc.Return? && ResOk(s, s.tasks[t].pc.res) && n < |s.msgs|
    ensures MsgOk(StepReturn(s, t), n)
  { assert MsgOk(s, n) && TaskMsgs(s, t); }

  lemma ReturnDone(s: State, t: nat)
    requires Shape(s) && Messages(s) && t < |s.tasks| && s.tasks[t].pc.Return?
    ensures DoneMsg(s.msgs, Done(t, s.tasks[t].call, s.tasks[t].pc.res), |s.done|) || s.tasks[t].pc.res.Took?
    ensures s.tasks[t].pc.res.Took? ==>
              s.tasks[t].pc.res.msg < |s.msgs| &&
              DoneMsg(Moved(s.msgs, s.tasks[t].pc.res.msg, Out(|s.done|)),
                  Done(t, s.tasks[t].call, s.tasks[t].pc.res), |s.done|)
  {
    var x := s.tasks[t]; var d := Done(t, x.call, x.pc.res);
    assert TaskMsgs(s, t) && TaskShape(s, t);
    forall j | 0 <= j < |x.call.arms| ensures ArmMsg(s.msgs, t, x.call, j) && DonePlaced(s.msgs, d, j) {
      assert ArmPlaced(s.msgs, s.entries, x, j);
    }
    if x.pc.res.Took? {
      var ms := Moved(s.msgs, x.pc.res.msg, Out(|s.done|));
      forall j | 0 <= j < |x.call.arms| ensures ArmMsg(ms, t, x.call, j) && DonePlaced(ms, d, j) {
        assert ArmMsg(s.msgs, t, x.call, j) && DonePlaced(s.msgs, d, j);
      }
    }
  }

  lemma MessagesReturn(s: State, t: nat)
    requires Shape(s) && Messages(s) && CanStep(s, t) && s.tasks[t].pc.Return?
    ensures Messages(Step(s, t))
  {
    var r := Step(s, t); var res := s.tasks[t].pc.res;
    assert TaskMsgs(s, t);
    ReturnDone(s, t);
    if res.Took? { Elsewhere(s, res.msg, Out(|s.done|)); }
    forall n | 0 <= n < |r.msgs| ensures MsgOk(r, n) { ReturnMsg(s, t, n); }
    forall u | 0 <= u < |r.tasks| ensures TaskMsgs(r, u) {
      assert TaskMsgs(s, u);
      if u != t && res.Took? && InCall(s.tasks[u].pc) { CallsElsewhere(s, res.msg, Out(|s.done|), u); }
    }
    forall i | 0 <= i < |r.done| ensures DoneMsg(r.msgs, r.done[i], i) && DoneBefore(r.tasks, r.done[i]) {
      if i < |s.done| { assert DoneMsg(s.msgs, s.done[i], i) && DoneBefore(s.tasks, s.done[i]); }
    }
  }

  // ---------------------------------------------------------- beginning and parking

  lemma BeginCall(s: State, t: nat, how: How, arms: seq<Arm>, order: seq<nat>, u: nat)
    requires Shape(s) && Messages(s) && CanBegin(s, t, how, arms, order) && u < |s.tasks|
    ensures TaskMsgs(Begin(s, t, how, arms, order), u)
  {
    var r := Begin(s, t, how, arms, order); var x := r.tasks[u];
    assert TaskMsgs(s, u) && TaskShape(s, u);
    if InCall(x.pc) {
      forall j | 0 <= j < |x.call.arms| ensures ArmPlaced(r.msgs, r.entries, x, j) {
        if u != t { assert ArmPlaced(s.msgs, s.entries, x, j); }
      }
    }
  }

  lemma BeginChan(msgs: seq<Msg>, more: seq<Msg>, x: Chan, c: nat)
    requires ChanMsgs(msgs, x, c)
    ensures ChanMsgs(msgs + more, x, c)
  {
    var ms := msgs + more;
    forall i | 0 <= i < |x.buf| ensures CameBy(ms, x.buf[i], c, InBuf(c, x.taken + i)) {
      assert CameBy(msgs, x.buf[i], c, InBuf(c, x.taken + i));
    }
    forall i | 0 <= i < |x.deq| ensures Dequeued(ms, x.deq[i], c) { assert Dequeued(msgs, x.deq[i], c); }
    if !x.skipped {
      var flow := x.deq + x.buf;
      FlowPlaced(msgs, x, c);
      forall i, j | 0 <= i < j < |flow| && SameSender(ms, flow[i], flow[j]) ensures flow[i] < flow[j] {
        assert SameSender(msgs, flow[i], flow[j]);
      }
    }
  }

  lemma BeginDone(msgs: seq<Msg>, more: seq<Msg>, d: Done, i: nat)
    requires DoneMsg(msgs, d, i)
    ensures DoneMsg(msgs + more, d, i)
  {
    var ms := msgs + more;
    forall j | 0 <= j < |d.call.arms| ensures ArmMsg(ms, d.task, d.call, j) && DonePlaced(ms, d, j) {
      assert ArmMsg(msgs, d.task, d.call, j) && DonePlaced(msgs, d, j);
    }
  }

  lemma MessagesBegin(s: State, t: nat, how: How, arms: seq<Arm>, order: seq<nat>)
    requires Shape(s) && Messages(s) && CanBegin(s, t, how, arms, order)
    ensures Messages(Begin(s, t, how, arms, order))
  {
    var r := Begin(s, t, how, arms, order); var more := r.msgs[|s.msgs|..];
    assert r.msgs == s.msgs + more;
    forall m | 0 <= m < |r.msgs| ensures MsgOk(r, m) { if m < |s.msgs| { assert MsgOk(s, m); } }
    forall c | 0 <= c < |r.chans| ensures ChanMsgs(r.msgs, r.chans[c], c) { BeginChan(s.msgs, more, s.chans[c], c); }
    forall e | 0 <= e < |r.entries| ensures SlotMsg(r.msgs, r.entries[e], e) {
      assert SlotMsg(s.msgs, s.entries[e], e);
    }
    forall u | 0 <= u < |r.tasks| ensures TaskMsgs(r, u) { BeginCall(s, t, how, arms, order, u); }
    forall i | 0 <= i < |r.done| ensures DoneMsg(r.msgs, r.done[i], i) && DoneBefore(r.tasks, r.done[i]) {
      assert DoneMsg(s.msgs, s.done[i], i) && DoneBefore(s.tasks, s.done[i]);
      BeginDone(s.msgs, more, s.done[i], i);
    }
  }

  lemma ParkCall(s: State, t: nat, u: nat)
    requires Shape(s) && Claims(s) && Messages(s) && t < |s.tasks| && AtPark(s.tasks[t]) && u < |s.tasks|
    ensures TaskMsgs(Park(s, t), u)
  {
    var r := Park(s, t); var x := s.tasks[u];
    assert TaskMsgs(s, u) && TaskClaim(s, u);
    if InCall(x.pc) {
      forall j | 0 <= j < |x.call.arms| ensures Accepted(r.entries, r.tasks[u], j) == Accepted(s.entries, x, j) {
        if u != t && Parked(x.pc) { assert ArmEntry(s.entries, u, x.call, x.first, x.sel, j); }
      }
      SameAccepted(s.msgs, s.entries, r.entries, x, r.tasks[u], u);
    }
  }

  lemma MessagesPark(s: State, t: nat)
    requires Shape(s) && Claims(s) && Messages(s) && t < |s.tasks| && AtPark(s.tasks[t])
    ensures Messages(Park(s, t))
  {
    var r := Park(s, t);
    forall m | 0 <= m < |r.msgs| ensures MsgOk(r, m) { assert MsgOk(s, m); }
    forall c | 0 <= c < |r.chans| ensures ChanMsgs(r.msgs, r.chans[c], c) { assert ChanMsgs(s.msgs, s.chans[c], c); }
    forall e | 0 <= e < |r.entries| ensures SlotMsg(r.msgs, r.entries[e], e) {
      if e < |s.entries| { assert SlotMsg(s.msgs, s.entries[e], e); }
    }
    forall u | 0 <= u < |r.tasks| ensures TaskMsgs(r, u) { ParkCall(s, t, u); }
    forall i | 0 <= i < |r.done| ensures DoneMsg(r.msgs, r.done[i], i) && DoneBefore(r.tasks, r.done[i]) {
      assert DoneMsg(s.msgs, s.done[i], i) && DoneBefore(s.tasks, s.done[i]);
    }
  }

  // --------------------------------------------------------------------- steps

  lemma MessagesTaskChan(s: State, t: nat, x: Task, c: nat, y: Chan)
    requires Messages(s) && t < |s.tasks| && Still(s.tasks[t], x) && c < |s.chans| && SameFlow(s.chans[c], y)
    ensures Messages(SetChan(SetTask(s, t, x), c, y))
  {
    MessagesTask(s, t, x);
    MessagesChan(SetTask(s, t, x), c, y);
  }

  lemma MessagesScan(s: State, t: nat)
    requires Shape(s) && Messages(s) && t < |s.tasks| && s.tasks[t].pc.Scan?
    requires s.tasks[t].pc.k < |s.tasks[t].call.arms| ==> LockFree(s, s.tasks[t].call.arms[s.tasks[t].pc.k].ch)
    ensures Messages(StepScan(s, t))
  {
    var x := s.tasks[t]; var r := StepScan(s, t);
    if x.pc.k < |x.call.arms| {
      MessagesTaskChan(s, t, r.tasks[t], x.call.arms[x.pc.k].ch,
        r.chans[x.call.arms[x.pc.k].ch]);
    }
    else if HasRes(r.tasks[t].pc) { MessagesFail(s, t, r.tasks[t]); }
    else { MessagesTask(s, t, r.tasks[t]); }
  }

  lemma MessagesAcquire(s: State, t: nat)
    requires Shape(s) && Messages(s) && t < |s.tasks| && s.tasks[t].pc.Acquire?
    requires |s.tasks[t].held| < |s.tasks[t].call.order| ==> LockFree(s, s.tasks[t].call.order[|s.tasks[t].held|])
    ensures Messages(StepAcquire(s, t))
  {
    var x := s.tasks[t]; var r := StepAcquire(s, t);
    if |x.held| < |x.call.order| {
      MessagesTaskChan(s, t, r.tasks[t], x.call.order[|x.held|],
        r.chans[x.call.order[|x.held|]]);
    }
    else { MessagesTask(s, t, r.tasks[t]); }
  }

  lemma MessagesAttempt(s: State, t: nat)
    requires Shape(s) && Claims(s) && Messages(s) && AttemptOk(s, t) && s.tasks[t].pc.Attempt?
    ensures Messages(StepAttempt(s, t))
  {
    var x := s.tasks[t]; var k := x.pc.k; var r := StepAttempt(s, t);
    if k == |x.call.arms| {
      if !x.call.how.Try? { MessagesPark(s, t); } else { MessagesFail(s, t, r.tasks[t]); }
    } else {
      var a := x.call.arms[k]; var c := s.chans[a.ch];
      if !a.put && c.buf != [] { MessagesTakeBuffer(s, t, k, a.ch); }
      else if a.put && !c.closed && x.pc.two && |c.buf| < c.cap { MessagesPutBuffer(s, t, k, a.ch); }
      else if a.put && c.closed { MessagesFail(s, t, r.tasks[t]); }
      else { MessagesTask(s, t, r.tasks[t]); }
    }
  }

  lemma MessagesDropHead(s: State, t: nat)
    requires Messages(s) && WalkOk(s, t)
    requires var a := s.tasks[t].call.arms[s.tasks[t].pc.k]; Others(s.chans[a.ch], a.put) != []
    ensures Messages(DropHead(s, t))
  {
    var x := s.tasks[t]; var a := x.call.arms[x.pc.k];
    MessagesTaskChan(s, t, x.(pc := Walk(x.pc.two, x.pc.k)), a.ch, Unlinked(s.chans[a.ch], a.put));
  }

  lemma MessagesWalkEnds(s: State, t: nat)
    requires Shape(s) && Messages(s) && WalkOk(s, t) && s.tasks[t].pc.Walk?
    requires var a := s.tasks[t].call.arms[s.tasks[t].pc.k]; Others(s.chans[a.ch], a.put) == []
    ensures Messages(StepWalk(s, t))
  {
    var x := s.tasks[t]; var k := x.pc.k; var a := x.call.arms[k]; var c := s.chans[a.ch]; var r := StepWalk(s, t);
    if !a.put && c.closed { MessagesFail(s, t, r.tasks[t]); }
    else if a.put && !x.pc.two && |c.buf| < c.cap { MessagesPutBuffer(s, t, k, a.ch); }
    else if x.pc.two { MessagesTaskChan(s, t, r.tasks[t], x.held[|x.held| - 1], r.chans[x.held[|x.held| - 1]]); }
    else { MessagesTask(s, t, r.tasks[t]); }
  }

  lemma MessagesWalk(s: State, t: nat)
    requires Shape(s) && Messages(s) && WalkOk(s, t) && s.tasks[t].pc.Walk?
    ensures Messages(StepWalk(s, t))
  {
    var x := s.tasks[t]; var a := x.call.arms[x.pc.k]; var list := Others(s.chans[a.ch], a.put);
    if list == [] { MessagesWalkEnds(s, t); }
    else if s.entries[list[0]].cancelled { MessagesDropHead(s, t); }
    else { MessagesTask(s, t, StepWalk(s, t).tasks[t]); }
  }

  lemma MessagesLook(s: State, t: nat)
    requires Messages(s) && WalkOk(s, t) && s.tasks[t].pc.Look?
    ensures Messages(StepLook(s, t))
  {
    var r := StepLook(s, t);
    if r.tasks[t].pc.Walk? { MessagesDropHead(s, t); } else { MessagesTask(s, t, r.tasks[t]); }
  }

  lemma MessagesMark(s: State, t: nat, e: nat)
    requires Messages(s) && EntryOk(s, e) && s.entries[e].stage.Waiting? && !s.entries[e].ok
    ensures Messages(MarkFired(s, t, e))
  {
    var y := s.entries[e].(stage := Firing(t));
    MessagesEntry(s, e, y);
    MessagesSame(SetEntry(s, e, y), MarkFired(s, t, e));
  }

  /** An unclaimed entry has no outcome. */
  lemma HeadBlank(s: State, t: nat, c: nat, e: nat)
    requires Shape(s) && Claims(s) && t < |s.tasks| && c in s.tasks[t].held && c < |s.chans|
    requires e in s.chans[c].takers || e in s.chans[c].putters
    requires !Waking(s.tasks[t].pc, e)
    ensures e < |s.entries| && s.entries[e].stage.Waiting? && !s.entries[e].ok
  {
    HeadWaits(s, t, c, e);
    assert EntryClaim(s, e);
  }

  lemma MessagesFired(s: State, t: nat, e: nat, x: Task)
    requires Messages(s) && t < |s.tasks| && EntryOk(s, e) && s.entries[e].stage.Waiting? && !s.entries[e].ok
             && Still(s.tasks[t], x)
    ensures Messages(SetTask(MarkFired(s, t, e), t, x))
  {
    MessagesMark(s, t, e);
    MessagesTask(MarkFired(s, t, e), t, x);
  }

  lemma MessagesFireHead(s: State, t: nat)
    requires Shape(s) && Claims(s) && Messages(s) && WalkOk(s, t) && s.tasks[t].pc.Fire?
    requires var a := s.tasks[t].call.arms[s.tasks[t].pc.k]; !FiredOver(s, Others(s.chans[a.ch], a.put)[0])
    ensures Messages(StepFire(s, t))
  {
    var x := s.tasks[t]; var a := x.call.arms[x.pc.k]; var e := Others(s.chans[a.ch], a.put)[0];
    ArmLocked(s, t);
    HeadBlank(s, t, a.ch, e);
    MessagesFired(s, t, e, StepFire(s, t).tasks[t]);
  }

  lemma MessagesFire(s: State, t: nat)
    requires Shape(s) && Claims(s) && Messages(s) && WalkOk(s, t) && s.tasks[t].pc.Fire?
    ensures Messages(StepFire(s, t))
  {
    var x := s.tasks[t]; var a := x.call.arms[x.pc.k]; var e := Others(s.chans[a.ch], a.put)[0];
    if FiredOver(s, e) { MessagesDropHead(s, t); } else { MessagesFireHead(s, t); }
  }

  /** A put that finds a claimable taker finds the buffer empty, unless a taker was skipped. */
  lemma BufferEmpty(s: State, t: nat)
    requires Shape(s) && Claims(s) && Queues(s) && WalkOk(s, t) && s.tasks[t].pc.Wake?
    ensures var a := s.tasks[t].call.arms[s.tasks[t].pc.k];
            !s.chans[a.ch].skipped || !a.put ==> s.chans[a.ch].buf == []
  {
    var x := s.tasks[t]; var a := x.call.arms[x.pc.k];
    WakeHead(s, t);
    assert TaskQueue(s, t) && ChanQueue(s, a.ch);
    if a.put { assert PendingAt(s.entries, s.fired, s.chans[a.ch].takers[0]); }
  }

  lemma WakeFacts(s: State, t: nat)
    requires Shape(s) && Claims(s) && WalkOk(s, t) && s.tasks[t].pc.Wake?
    ensures var a := s.tasks[t].call.arms[s.tasks[t].pc.k]; var e := Others(s.chans[a.ch], a.put)[0];
            && s.entries[e].ch == a.ch && s.entries[e].put == !a.put && !s.entries[e].ok
            && s.entries[e].stage.Firing? && !s.entries[e].woken
  {
    var a := s.tasks[t].call.arms[s.tasks[t].pc.k]; var e := Others(s.chans[a.ch], a.put)[0];
    WakeHead(s, t);
    assert ChanShape(s, a.ch) && EntryClaim(s, e);
    assert Queueable(s.entries, e, a.ch, !a.put);
  }

  lemma MessagesWakePut(s: State, t: nat)
    requires Shape(s) && Claims(s) && Queues(s) && Messages(s) && WalkOk(s, t) && s.tasks[t].pc.Wake?
    requires s.tasks[t].call.arms[s.tasks[t].pc.k].put
    ensures Messages(StepWake(s, t))
  {
    var x := s.tasks[t]; var k := x.pc.k; var c := x.call.arms[k].ch; var r := StepWake(s, t);
    WakeFacts(s, t);
    BufferEmpty(s, t);
    MessagesHanded(s, t, r.tasks[t], k, c, r.chans[c], Others(s.chans[c], true)[0]);
  }

  lemma MessagesWakeTake(s: State, t: nat)
    requires Shape(s) && Claims(s) && Queues(s) && Messages(s) && WalkOk(s, t) && s.tasks[t].pc.Wake?
    requires !s.tasks[t].call.arms[s.tasks[t].pc.k].put
    ensures Messages(StepWake(s, t))
  {
    var x := s.tasks[t]; var k := x.pc.k; var c := x.call.arms[k].ch; var r := StepWake(s, t);
    WakeFacts(s, t);
    BufferEmpty(s, t);
    MessagesReceived(s, t, r.tasks[t], k, c, r.chans[c], Others(s.chans[c], false)[0]);
  }

  lemma MessagesWake(s: State, t: nat)
    requires Shape(s) && Claims(s) && Queues(s) && Messages(s) && WalkOk(s, t) && s.tasks[t].pc.Wake?
    ensures Messages(StepWake(s, t))
  {
    if s.tasks[t].call.arms[s.tasks[t].pc.k].put { MessagesWakePut(s, t); } else { MessagesWakeTake(s, t); }
  }

  lemma MessagesPost(s: State, e: nat)
    requires Messages(s) && EntryOk(s, e) && s.entries[e].stage.Owed? && s.entries[e].woken
    ensures Messages(Post(s, e))
  {
    var o := s.entries[e].owner; var r := Post(s, e);
    MessagesTask(s, o, r.tasks[o]);
    MessagesEntry(SetTask(s, o, r.tasks[o]), e, r.entries[e]);
  }

  lemma MessagesPosted(s: State, t: nat, x: Task, e: nat)
    requires Messages(s) && t < |s.tasks| && Still(s.tasks[t], x) && EntryOk(s, e) && s.entries[e].stage.Owed?
             && s.entries[e].woken
    ensures Messages(Post(SetTask(s, t, x), e))
  {
    MessagesTask(s, t, x);
    MessagesPost(SetTask(s, t, x), e);
  }

  /** What a task owes, it can post. */
  lemma OwedFacts(s: State, t: nat, i: nat)
    requires Claims(s) && t < |s.tasks| && i < |s.tasks[t].owed|
    ensures var e := s.tasks[t].owed[i];
            && e < |s.entries| && s.entries[e].stage == Owed(t) && s.entries[e].woken && s.entries[e].owner < |s.tasks|
            && (s.tasks[t].pc.PostOut? || s.tasks[t].pc.ClosePost? ==> s.tasks[s.entries[e].owner].kind.Fiber?)
  {
    var e := s.tasks[t].owed[i];
    assert TaskClaim(s, t);
    assert OwesEntry(s.tasks, s.entries, t, e, true) || OwesEntry(s.tasks, s.entries, t, e, false);
    assert EntryClaim(s, e);
  }

  lemma MessagesDeliver(s: State, t: nat)
    requires Claims(s) && Messages(s) && DeliverOk(s, t) && (s.tasks[t].pc.Deliver? || s.tasks[t].pc.PostOut?)
    ensures Messages(StepDeliver(s, t))
  {
    var x := s.tasks[t]; var e := x.owed[0];
    OwedFacts(s, t, 0);
    if s.tasks[s.entries[e].owner].kind.Fiber? { NeverStale(s, t, e); }
    MessagesPosted(s, t, x.(owed := [], pc := if x.pc.Deliver? then Release(x.pc.res) else Return(x.pc.res)), e);
  }

  lemma MessagesRelease(s: State, t: nat)
    requires Messages(s) && CanStep(s, t) && (s.tasks[t].pc.Release? || s.tasks[t].pc.ParkRelease?)
    ensures Messages(Step(s, t))
  {
    var x := s.tasks[t]; var r := Step(s, t);
    if x.held != [] { MessagesTaskChan(s, t, r.tasks[t], x.held[|x.held| - 1], r.chans[x.held[|x.held| - 1]]); }
    else { MessagesTask(s, t, r.tasks[t]); }
  }

  lemma MessagesResume(s: State, t: nat)
    requires Shape(s) && Claims(s) && Messages(s) && ResumeOk(s, t) && (s.tasks[t].pc.Resumed? || s.tasks[t].pc.Wait?)
    ensures Messages(StepResume(s, t))
  {
    var x := s.tasks[t]; var y := if x.pc.Resumed? then x.(parked := 0) else x.(sem := x.sem - 1);
    assert TaskClaim(s, t);
    if x.call.how.Select? { MessagesTask(s, t, y.(pc := Settle(0, None))); } else { MessagesFinish(s, t, y, x.first); }
  }

  lemma MessagesSettle(s: State, t: nat)
    requires Shape(s) && Claims(s) && Messages(s) && SettleOk(s, t) && s.tasks[t].pc.Settle?
    ensures Messages(StepSettle(s, t))
  {
    var x := s.tasks[t]; var j := x.pc.j; var r := StepSettle(s, t);
    assert TaskClaim(s, t);
    if j < |x.call.arms| {
      MessagesTask(s, t, r.tasks[t]);
      if !s.entries[x.first + j].woken {
        MessagesEntry(SetTask(s, t, r.tasks[t]), x.first + j,
          r.entries[x.first + j]);
      }
    } else { MessagesFinish(s, t, x, x.first + x.pc.winner.value); }
  }

  // ---------------------------------------------------------------- close steps

  lemma MessagesCloseWalk(s: State, t: nat)
    requires Shape(s) && Messages(s) && CloseWalkOk(s, t) && s.tasks[t].pc.CloseWalk?
    ensures Messages(StepCloseWalk(s, t))
  {
    var x := s.tasks[t]; var c := x.pc.c; var r := StepCloseWalk(s, t); var target := CloseTarget(s.chans[c]);
    if target.None? { MessagesTaskChan(s, t, r.tasks[t], x.held[|x.held| - 1], r.chans[x.held[|x.held| - 1]]); }
    else if s.entries[target.value].cancelled { MessagesTaskChan(s, t, r.tasks[t], c, r.chans[c]); }
    else { MessagesTask(s, t, r.tasks[t]); }
  }

  lemma MessagesCloseFire(s: State, t: nat)
    requires Shape(s) && Claims(s) && Messages(s) && CloseWalkOk(s, t) && s.tasks[t].pc.CloseFire?
    ensures Messages(StepCloseFire(s, t))
  {
    var x := s.tasks[t]; var c := x.pc.c; var e := CloseTarget(s.chans[c]).value; var r := StepCloseFire(s, t);
    if FiredOver(s, e) { MessagesTaskChan(s, t, r.tasks[t], c, r.chans[c]); }
    else {
      assert TaskShape(s, t);
      HeadBlank(s, t, c, e);
      MessagesFired(s, t, e, r.tasks[t]);
    }
  }

  lemma MessagesCloseWake(s: State, t: nat)
    requires Shape(s) && Claims(s) && Messages(s) && CloseWalkOk(s, t) && s.tasks[t].pc.CloseWake?
    ensures Messages(StepCloseWake(s, t))
  {
    var c := s.tasks[t].pc.c; var e := CloseTarget(s.chans[c]).value; var r := StepCloseWake(s, t);
    assert TaskClaim(s, t) && TaskShape(s, t) && EntryClaim(s, e);
    MessagesTaskChan(s, t, r.tasks[t], c, r.chans[c]);
    MessagesEntry(SetChan(SetTask(s, t, r.tasks[t]), c, r.chans[c]), e, r.entries[e]);
  }

  lemma MessagesCloseSignal(s: State, t: nat)
    requires Claims(s) && Messages(s) && CloseSignalOk(s, t) && s.tasks[t].pc.CloseSignal?
    ensures Messages(StepCloseSignal(s, t))
  {
    var x := s.tasks[t]; var n := |x.owed| - 1;
    OwedFacts(s, t, n);
    MessagesPosted(s, t, x.(owed := x.owed[..n], pc := CloseWalk(x.pc.c)), x.owed[n]);
  }

  lemma MessagesClosePost(s: State, t: nat)
    requires Claims(s) && Messages(s) && ClosePostOk(s, t) && s.tasks[t].pc.ClosePost?
    ensures Messages(StepClosePost(s, t))
  {
    var x := s.tasks[t];
    if x.owed == [] { MessagesTask(s, t, StepClosePost(s, t).tasks[t]); }
    else {
      OwedFacts(s, t, 0);
      if Ready(s, x.owed[0]) { MessagesPosted(s, t, x.(owed := x.owed[1..]), x.owed[0]); }
      else { MessagesTask(s, t, x.(owed := x.owed[1..])); }
    }
  }

  lemma MessagesCloseCas(s: State, t: nat)
    requires Messages(s) && CanStep(s, t)
    requires s.tasks[t].pc.CloseCas? || s.tasks[t].pc.CloseCas2? || s.tasks[t].pc.CloseRun? || s.tasks[t].pc.CloseLock?
    ensures Messages(Step(s, t))
  {
    var r := Step(s, t); var c := s.tasks[t].pc.c;
    if s.tasks[t].pc.CloseRun? || r.tasks[t].pc.CloseLock? { MessagesTaskChan(s, t, r.tasks[t], c, r.chans[c]); }
    else if s.tasks[t].pc.CloseLock? {
      var s1 := Lock(s, t, c, CloseWalk(c));
      MessagesTaskChan(s, t, s1.tasks[t], c, s1.chans[c]);
      MessagesChan(s1, c, s1.chans[c].(closed := true));
    } else { MessagesTask(s, t, r.tasks[t]); }
  }

  // -------------------------------------------------------------------- dispatch

  lemma MessagesCloseStep(s: State, t: nat)
    requires Shape(s) && Claims(s) && Queues(s) && Messages(s) && CanStep(s, t) && Closes(s.tasks[t].pc)
    ensures Messages(Step(s, t))
  {
    match s.tasks[t].pc {
      case CloseCas(_) => MessagesCloseCas(s, t);
      case CloseCas2(_) => MessagesCloseCas(s, t);
      case CloseLock(_) => MessagesCloseCas(s, t);
      case CloseWalk(_) => MessagesCloseWalk(s, t);
      case CloseFire(_) => MessagesCloseFire(s, t);
      case CloseWake(_, _) => MessagesCloseWake(s, t);
      case CloseSignal(_) => MessagesCloseSignal(s, t);
      case ClosePost(_) => MessagesClosePost(s, t);
      case CloseRun(_) => MessagesCloseCas(s, t);
      case _ =>
    }
  }

  lemma MessagesWalkStep(s: State, t: nat)
    requires Shape(s) && Claims(s) && Queues(s) && Messages(s) && CanStep(s, t) && Walks(s.tasks[t].pc)
    ensures Messages(Step(s, t))
  {
    match s.tasks[t].pc {
      case Scan(_) => MessagesScan(s, t);
      case Acquire => MessagesAcquire(s, t);
      case Attempt(_, _) => MessagesAttempt(s, t);
      case Walk(_, _) => MessagesWalk(s, t);
      case Look(_, _) => MessagesLook(s, t);
      case Fire(_, _) => MessagesFire(s, t);
      case Wake(_, _, _) => MessagesWake(s, t);
      case _ =>
    }
  }

  lemma MessagesRestStep(s: State, t: nat)
    requires Shape(s) && Claims(s) && Queues(s) && Messages(s) && CanStep(s, t) && !Walks(s.tasks[t].pc)
             && !Closes(s.tasks[t].pc)
    ensures Messages(Step(s, t))
  {
    match s.tasks[t].pc {
      case Deliver(_, _, _) => MessagesDeliver(s, t);
      case PostOut(_) => MessagesDeliver(s, t);
      case Release(_) => MessagesRelease(s, t);
      case Return(_) => MessagesReturn(s, t);
      case ParkRelease => MessagesRelease(s, t);
      case Yield => MessagesTask(s, t, Step(s, t).tasks[t]);
      case Switched => MessagesTask(s, t, Step(s, t).tasks[t]);
      case Resumed => MessagesResume(s, t);
      case Wait => MessagesResume(s, t);
      case Settle(_, _) => MessagesSettle(s, t);
      case _ =>
    }
  }

  lemma MessagesStep(s: State, t: nat)
    requires Shape(s) && Claims(s) && Queues(s) && Messages(s) && CanStep(s, t)
    ensures Messages(Step(s, t))
  {
    if Walks(s.tasks[t].pc) { MessagesWalkStep(s, t); }
    else if Closes(s.tasks[t].pc) { MessagesCloseStep(s, t); }
    else { MessagesRestStep(s, t); }
  }

  lemma MessagesCloseCall(s: State, a: Action)
    requires Messages(s) && Enabled(s, a) && (a.CloseCall? || a.CloseDirect? || a.LoopDispatch?)
    ensures Messages(Next(s, a))
  {
    var r := Next(s, a); var t := a.t; var s1 := SetTask(s, t, r.tasks[t]);
    MessagesTask(s, t, r.tasks[t]);
    if a.CloseCall? && s.chans[a.c].guard.Open? {
      MessagesChan(s1, a.c, r.chans[a.c]);
      MessagesSame(SetChan(s1, a.c, r.chans[a.c]), r);
    } else {
      assert r.tasks == s1.tasks;
      MessagesSame(s1, r);
    }
  }

  lemma MessagesNext(s: State, a: Action)
    requires Shape(s) && Claims(s) && Queues(s) && Messages(s) && Enabled(s, a)
    ensures Messages(Next(s, a))
  {
    match a {
      case Invoke(t, how, arms, order) => MessagesBegin(s, t, how, arms, order);
      case Advance(t) => MessagesStep(s, t);
      case Resume(t) => MessagesTask(s, t, Pop(s, t).tasks[t]);
      case CloseCall(_, _, _) => MessagesCloseCall(s, a);
      case CloseDirect(_, _) => MessagesCloseCall(s, a);
      case LoopDispatch(_) => MessagesCloseCall(s, a);
      case Install(c) => MessagesChan(s, c, SetOnClose(s, c).chans[c]);
      case Sweep(_, c) => MessagesChan(s, c, Compact(s, c).chans[c]);
    }
  }
}
