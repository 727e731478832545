/**
 First layer of the protocol's invariant: identifiers are in range, waiter lists hold
 entries of their own channel in queueing order, and each task holds exactly the locks
 its program counter says.
 */
module ProtocolShape {
  import opened Common
  import opened Protocol

  predicate Closes(pc: PC) {
    pc.CloseCas? || pc.CloseCas2? || pc.CloseLock? || pc.CloseWalk? || pc.CloseFire? || pc.CloseWake? ||
    pc.CloseSignal? || pc.ClosePost? || pc.CloseRun?
  }

  /** The close holds the channel's lock. */
  predicate CloseLocked(pc: PC) { pc.CloseWalk? || pc.CloseFire? || pc.CloseWake? || pc.CloseSignal? }

  /** Locking, trying and walking. */
  predicate Walks(pc: PC) { pc.Scan? || pc.Acquire? || pc.Attempt? || pc.Walk? || pc.Look? || pc.Fire? || pc.Wake? }

  predicate InCall(pc: PC) { !pc.Idle? && !pc.Abort? && !Closes(pc) }

  /** From the enqueueing of the entries to the end of Phase 7. */
  predicate Parked(pc: PC) {
    pc.ParkRelease? || pc.Yield? || pc.Switched? || pc.Suspended? || pc.Resumed? || pc.Wait? || pc.Settle?
  }

  predicate AtHead(pc: PC) { pc.Look? || pc.Fire? || pc.Wake? }
  predicate OnArm(pc: PC) { pc.Walk? || AtHead(pc) || pc.Deliver? }

  // ------------------------------------------------------------------- tasks

  /** The record that the call made for its arm j. */
  predicate ArmMsg(msgs: seq<Msg>, t: nat, call: Call, j: nat)
    requires j < |call.arms| && call.base + |call.arms| <= |msgs|
  {
    var m := msgs[call.base + j];
    m.sender == t && m.ch == call.arms[j].ch && m.put == call.arms[j].put
  }

  ghost predicate CallOk(n: nat, msgs: seq<Msg>, t: nat, call: Call) {
    && (forall j :: 0 <= j < |call.arms| ==> call.arms[j].ch < n)
    && IsLockOrder(call.order, call.arms)
    && (!call.how.Select? ==> |call.arms| == 1)
    && call.base + |call.arms| <= |msgs|
    && (forall j :: 0 <= j < |call.arms| ==> ArmMsg(msgs, t, call, j))
  }

  /** The locks a task holds, in the order it took them. */
  predicate HeldOk(x: Task) {
    match x.pc {
      case Acquire => |x.held| <= |x.call.order| && x.held == x.call.order[..|x.held|]
      case Attempt(two, k) =>
        if two then k < |x.call.arms| && x.held == [x.call.arms[k].ch]
        else k <= |x.call.arms| && x.held == x.call.order
      case Walk(two, k) => ArmHeld(x, two, k)
      case Look(two, k) => ArmHeld(x, two, k)
      case Fire(two, k) => ArmHeld(x, two, k)
      case Wake(two, k, _) => ArmHeld(x, two, k)
      case Deliver(two, k, _) => ArmHeld(x, two, k)
      case Release(_) => true
      case ParkRelease => true
      case CloseWalk(c) => x.held == [c]
      case CloseFire(c) => x.held == [c]
      case CloseWake(c, _) => x.held == [c]
      case CloseSignal(c) => x.held == [c]
      case _ => x.held == []
    }
  }

  predicate ArmHeld(x: Task, two: bool, k: nat) {
    k < |x.call.arms| && x.held == if two then [x.call.arms[k].ch] else x.call.order
  }

  predicate CloseArg(pc: PC, n: nat) { (Closes(pc) && pc.c < n) || !Closes(pc) }

  /** A task that examines an entry examines the head of the list it walks. */
  predicate HeadOk(chans: seq<Chan>, x: Task) {
    && (AtHead(x.pc) ==>
          && x.pc.k < |x.call.arms| && x.call.arms[x.pc.k].ch < |chans|
          && var list := Others(chans[x.call.arms[x.pc.k].ch], x.call.arms[x.pc.k].put);
             list != [] && (x.pc.Wake? ==> list[0] == x.pc.e))
    && (x.pc.CloseFire? ==> x.pc.c < |chans| && CloseTarget(chans[x.pc.c]).Some?)
    && (x.pc.CloseWake? ==> x.pc.c < |chans| && CloseTarget(chans[x.pc.c]) == Some(x.pc.e))
  }

  ghost predicate TaskShape(s: State, t: nat)
    requires t < |s.tasks|
  {
    var x := s.tasks[t];
    && (InCall(x.pc) ==> CallOk(|s.chans|, s.msgs, t, x.call))
    && HeldOk(x)
    && Ascending(x.held)
    && CloseArg(x.pc, |s.chans|)
    && HeadOk(s.chans, x)
  }

  // ---------------------------------------------------------- channels, entries

  predicate Queueable(entries: seq<Entry>, e: nat, c: nat, put: bool) {
    e < |entries| && entries[e].ch == c && entries[e].put == put
  }

  ghost predicate ListOk(entries: seq<Entry>, list: seq<nat>, c: nat, put: bool) {
    Ascending(list) && forall i :: 0 <= i < |list| ==> Queueable(entries, list[i], c, put)
  }

  ghost predicate ChanShape(s: State, c: nat)
    requires c < |s.chans|
  {
    && ListOk(s.entries, s.chans[c].takers, c, false)
    && ListOk(s.entries, s.chans[c].putters, c, true)
    && (s.chans[c].lock.Some? ==>
          s.chans[c].lock.value < |s.tasks| && c in s.tasks[s.chans[c].lock.value].held)
  }

  ghost predicate EntryShape(s: State, e: nat)
    requires e < |s.entries|
  {
    var y := s.entries[e];
    && y.owner < |s.tasks| && y.ch < |s.chans| && y.msg < |s.msgs|
    && s.msgs[y.msg].sender == y.owner && s.msgs[y.msg].ch == y.ch && s.msgs[y.msg].put == y.put
    && (y.sel.Some? ==> y.sel.value < |s.fired|)
  }

  /** The task owns the locks it lists. */
  ghost predicate TaskLocks(s: State, t: nat)
    requires t < |s.tasks|
  {
    forall i :: 0 <= i < |s.tasks[t].held| ==>
      s.tasks[t].held[i] < |s.chans| && s.chans[s.tasks[t].held[i]].lock == Some(t)
  }

  ghost predicate Shape(s: State) {
    && (forall t :: 0 <= t < |s.tasks| ==> TaskShape(s, t) && TaskLocks(s, t))
    && (forall c :: 0 <= c < |s.chans| ==> ChanShape(s, c))
    && (forall e :: 0 <= e < |s.entries| ==> EntryShape(s, e))
  }

  lemma ShapeInit(s: State)
    requires Init(s)
    ensures Shape(s)
  { }

  // ------------------------------------------------------------------ frames

  predicate SameEntry(y: Entry, z: Entry) {
    z == y.(cancelled := z.cancelled, woken := z.woken, ok := z.ok, slot := z.slot, stage := z.stage)
  }

  predicate SameLists(c: Chan, d: Chan) { c.takers == d.takers && c.putters == d.putters && c.lock == d.lock }

  /** Only fields that the shape does not mention differ. */
  ghost predicate Soft(s: State, r: State) {
    && |r.chans| == |s.chans| && (forall c :: 0 <= c < |s.chans| ==> SameLists(s.chans[c], r.chans[c]))
    && |r.entries| == |s.entries| && (forall e :: 0 <= e < |s.entries| ==> SameEntry(s.entries[e], r.entries[e]))
    && |r.msgs| == |s.msgs| && (forall m :: 0 <= m < |s.msgs| ==> r.msgs[m] == s.msgs[m].(place := r.msgs[m].place))
    && |r.fired| == |s.fired|
  }

  lemma ShapeSoft(s: State, r: State)
    requires Shape(s) && Soft(s, r) && r.tasks == s.tasks
    ensures Shape(r)
  {
    forall t | 0 <= t < |r.tasks| ensures TaskShape(r, t) && TaskLocks(r, t) {
      assert TaskShape(s, t);
      var x := s.tasks[t];
      if InCall(x.pc) {
        forall j | 0 <= j < |x.call.arms| ensures ArmMsg(r.msgs, t, x.call, j) { assert ArmMsg(s.msgs, t, x.call, j); }
      }
    }
    forall c | 0 <= c < |r.chans| ensures ChanShape(r, c) { assert ChanShape(s, c); }
    forall e | 0 <= e < |r.entries| ensures EntryShape(r, e) { assert EntryShape(s, e); }
  }

  lemma ShapeChan(s: State, c: nat, x: Chan)
    requires Shape(s) && c < |s.chans| && SameLists(s.chans[c], x)
    ensures Shape(SetChan(s, c, x))
  { ShapeSoft(s, SetChan(s, c, x)); }

  lemma ShapeEntry(s: State, e: nat, y: Entry)
    requires Shape(s) && e < |s.entries| && SameEntry(s.entries[e], y)
    ensures Shape(SetEntry(s, e, y))
  { ShapeSoft(s, SetEntry(s, e, y)); }

  lemma ShapePlace(s: State, m: nat, p: Place)
    requires Shape(s) && m < |s.msgs|
    ensures Shape(SetPlace(s, m, p))
  { ShapeSoft(s, SetPlace(s, m, p)); }

  lemma ShapeMarkFired(s: State, t: nat, e: nat)
    requires Shape(s) && EntryOk(s, e)
    ensures Shape(MarkFired(s, t, e))
  { ShapeSoft(s, MarkFired(s, t, e)); }

  /** Two tasks never hold the same lock. */
  lemma Exclusive(s: State, t: nat, u: nat, c: nat)
    requires Shape(s) && t < |s.tasks| && u < |s.tasks| && c in s.tasks[t].held && c in s.tasks[u].held
    ensures t == u && c < |s.chans| && s.chans[c].lock == Some(t)
  { assert TaskLocks(s, t) && TaskLocks(s, u); }

  lemma ArmLocked(s: State, t: nat)
    requires Shape(s) && t < |s.tasks| && (OnArm(s.tasks[t].pc)
             || (s.tasks[t].pc.Attempt? && s.tasks[t].pc.k < |s.tasks[t].call.arms|))
    ensures var x := s.tasks[t];
            x.pc.k < |x.call.arms| && x.call.arms[x.pc.k].ch in x.held && x.call.arms[x.pc.k].ch < |s.chans|
  { assert TaskShape(s, t) && TaskLocks(s, t); }

  /** A task that does not hold c, or sees c unchanged, keeps its shape when c and t change. */
  lemma OtherTask(s: State, r: State, t: nat, c: nat, u: nat)
    requires Shape(s) && t < |s.tasks| && c < |s.chans| && u < |s.tasks| && u != t
    requires |r.tasks| == |s.tasks| && r.tasks[u] == s.tasks[u] && r.msgs == s.msgs
    requires |r.chans| == |s.chans| && r.chans == s.chans[c := r.chans[c]]
    requires c in s.tasks[t].held || s.chans[c].lock.None?
    ensures TaskShape(r, u) && TaskLocks(r, u)
  {
    var x := s.tasks[u];
    assert TaskShape(s, u) && TaskLocks(s, u);
    assert c !in x.held by { if c in x.held && c in s.tasks[t].held { Exclusive(s, t, u, c); } }
    if OnArm(x.pc) { ArmLocked(s, u); }
  }

  /** What is left to show of a step that writes one task and one channel. */
  lemma ShapeBy(s: State, t: nat, x: Task, c: nat, ch: Chan)
    requires Shape(s) && t < |s.tasks| && c < |s.chans|
    requires c in s.tasks[t].held || s.chans[c].lock.None?
    requires var r := s.(tasks := s.tasks[t := x], chans := s.chans[c := ch]);
             TaskShape(r, t) && TaskLocks(r, t) && ChanShape(r, c)
    requires forall d :: 0 <= d < |s.chans| && d != c && d in s.tasks[t].held ==> d in x.held
    ensures Shape(s.(tasks := s.tasks[t := x], chans := s.chans[c := ch]))
  {
    var r := s.(tasks := s.tasks[t := x], chans := s.chans[c := ch]);
    forall u | 0 <= u < |r.tasks| ensures TaskShape(r, u) && TaskLocks(r, u) {
      if u != t { OtherTask(s, r, t, c, u); }
    }
    forall d | 0 <= d < |r.chans| ensures ChanShape(r, d) { if d != c { assert ChanShape(s, d); } }
    forall e | 0 <= e < |r.entries| ensures EntryShape(r, e) { assert EntryShape(s, e); }
  }

  // ----------------------------------------------------------- elementary updates

  lemma ShapeTask(s: State, t: nat, x: Task)
    requires Shape(s) && t < |s.tasks|
    requires x.held == s.tasks[t].held && x.call == s.tasks[t].call
    requires HeldOk(x) && (InCall(x.pc) ==> InCall(s.tasks[t].pc)) && CloseArg(x.pc, |s.chans|)
    requires HeadOk(s.chans, x)
    ensures Shape(SetTask(s, t, x))
  {
    var r := SetTask(s, t, x);
    assert TaskShape(s, t);
    forall u | 0 <= u < |r.tasks| ensures TaskShape(r, u) && TaskLocks(r, u) {
      assert TaskShape(s, u) && TaskLocks(s, u);
    }
    forall c | 0 <= c < |r.chans| ensures ChanShape(r, c) { assert ChanShape(s, c); }
    forall e | 0 <= e < |r.entries| ensures EntryShape(r, e) { assert EntryShape(s, e); }
  }

  predicate AnyHead(pc: PC) { AtHead(pc) || pc.CloseFire? || pc.CloseWake? }

  /** ch is c without the first i takers and j putters. */
  predicate Shortened(c: Chan, ch: Chan, i: nat, j: nat) {
    && i <= |c.takers| && j <= |c.putters|
    && ch.takers == c.takers[i..] && ch.putters == c.putters[j..] && ch.lock == c.lock
  }

  /** Drop the first entries of a list that the task has locked. */
  lemma ShapeUnlink(s: State, t: nat, x: Task, c: nat, ch: Chan, i: nat, j: nat)
    requires Shape(s) && t < |s.tasks| && c in s.tasks[t].held && c < |s.chans|
    requires Shortened(s.chans[c], ch, i, j)
    requires x.held == s.tasks[t].held && x.call == s.tasks[t].call
    requires HeldOk(x) && (InCall(x.pc) ==> InCall(s.tasks[t].pc)) && CloseArg(x.pc, |s.chans|) && !AnyHead(x.pc)
    ensures Shape(SetChan(SetTask(s, t, x), c, ch))
  {
    assert TaskShape(s, t) && TaskLocks(s, t) && ChanShape(s, c) && s.chans[c].lock == Some(t);
    var r := s.(tasks := s.tasks[t := x], chans := s.chans[c := ch]);
    assert ChanShape(r, c);
    assert TaskShape(r, t);
    ShapeBy(s, t, x, c, ch);
  }

  lemma ShapeLock(s: State, t: nat, c: nat, pc: PC)
    requires Shape(s) && t < |s.tasks| && LockFree(s, c)
    requires var x := s.tasks[t].(held := s.tasks[t].held + [c], pc := pc);
             HeldOk(x) && Ascending(x.held) && (InCall(pc) ==> InCall(s.tasks[t].pc)) && CloseArg(pc, |s.chans|)
                 && !AnyHead(pc)
    ensures Shape(Lock(s, t, c, pc))
  {
    var x := s.tasks[t].(held := s.tasks[t].held + [c], pc := pc);
    var ch := s.chans[c].(lock := Some(t));
    assert TaskShape(s, t) && TaskLocks(s, t) && ChanShape(s, c);
    var r := s.(tasks := s.tasks[t := x], chans := s.chans[c := ch]);
    assert c in x.held && forall d :: d in s.tasks[t].held ==> d in x.held;
    assert ChanShape(r, c);
    assert TaskShape(r, t);
    ShapeBy(s, t, x, c, ch);
  }

  lemma LastHeld(held: seq<nat>)
    requires held != [] && Ascending(held)
    ensures var n := |held| - 1;
            && (forall d :: d in held && d != held[n] ==> d in held[..n])
            && (forall i :: 0 <= i < n ==> held[..n][i] == held[i] && held[i] != held[n])
  { }

  lemma TaskShapeUnlock(s: State, r: State, t: nat, pc: PC)
    requires t < |s.tasks| && TaskShape(s, t) && s.tasks[t].held != []
    requires var x := s.tasks[t].(held := s.tasks[t].held[..|s.tasks[t].held| - 1], pc := pc);
             && HeldOk(x) && (InCall(pc) ==> InCall(s.tasks[t].pc)) && CloseArg(pc, |s.chans|) && !AnyHead(pc)
             && r.tasks == s.tasks[t := x] && |r.chans| == |s.chans| && r.msgs == s.msgs
    ensures TaskShape(r, t)
  { }

  lemma ShapeUnlock(s: State, t: nat, pc: PC)
    requires Shape(s) && t < |s.tasks| && s.tasks[t].held != []
    requires var x := s.tasks[t].(held := s.tasks[t].held[..|s.tasks[t].held| - 1], pc := pc);
             HeldOk(x) && (InCall(pc) ==> InCall(s.tasks[t].pc)) && CloseArg(pc, |s.chans|) && !AnyHead(pc)
    requires s.tasks[t].held[|s.tasks[t].held| - 1] < |s.chans|
    ensures Shape(Unlock(s, t, pc))
  {
    var n := |s.tasks[t].held| - 1;
    var c := s.tasks[t].held[n];
    var x := s.tasks[t].(held := s.tasks[t].held[..n], pc := pc);
    var ch := s.chans[c].(lock := None);
    var r := s.(tasks := s.tasks[t := x], chans := s.chans[c := ch]);
    assert TaskShape(s, t) && TaskLocks(s, t) && ChanShape(s, c);
    TaskShapeUnlock(s, r, t, pc);
    LastHeld(s.tasks[t].held);
    ShapeBy(s, t, x, c, ch);
  }

  // ------------------------------------------------------------- growing steps

  lemma {:induction false} JoiningRange(arms: seq<Arm>, c: nat, put: bool, first: nat, i: nat)
    requires i < |Joining(arms, c, put, first)|
    ensures var e := Joining(arms, c, put, first)[i]; first <= e < first + |arms| && arms[e - first] == Arm(c, put)
  {
    var n := |arms| - 1;
    if i < |Joining(arms[..n], c, put, first)| { JoiningRange(arms[..n], c, put, first, i); }
  }

  lemma {:induction false} JoiningAscends(arms: seq<Arm>, c: nat, put: bool, first: nat)
    ensures var r := Joining(arms, c, put, first);
            Ascending(r) && (forall i :: 0 <= i < |r| ==>
                  first <= r[i] < first + |arms| && arms[r[i] - first] == Arm(c, put))
  {
    if arms != [] { JoiningAscends(arms[..|arms| - 1], c, put, first); }
    forall i | 0 <= i < |Joining(arms, c, put, first)|
      ensures var e := Joining(arms, c, put, first)[i]; first <= e < first + |arms| && arms[e - first] == Arm(c, put)
    {
      JoiningRange(arms, c, put, first, i);
    }
  }

  lemma {:induction false} JoiningHas(arms: seq<Arm>, c: nat, put: bool, first: nat, j: nat)
    requires j < |arms| && arms[j] == Arm(c, put)
    ensures first + j in Joining(arms, c, put, first)
  {
    if j < |arms| - 1 { JoiningHas(arms[..|arms| - 1], c, put, first, j); }
  }

  lemma JoiningOk(arms: seq<Arm>, c: nat, put: bool, first: nat)
    ensures var r := Joining(arms, c, put, first);
            && Ascending(r)
            && (forall i :: 0 <= i < |r| ==> first <= r[i] < first + |arms| && arms[r[i] - first] == Arm(c, put))
            && (forall j :: 0 <= j < |arms| && arms[j] == Arm(c, put) ==> first + j in r)
  {
    JoiningAscends(arms, c, put, first);
    forall j | 0 <= j < |arms| && arms[j] == Arm(c, put) ensures first + j in Joining(arms, c, put, first) {
      JoiningHas(arms, c, put, first, j);
    }
  }

  lemma ShapeBegin(s: State, t: nat, how: How, arms: seq<Arm>, order: seq<nat>)
    requires Shape(s) && CanBegin(s, t, how, arms, order)
    ensures Shape(Begin(s, t, how, arms, order))
  {
    var r := Begin(s, t, how, arms, order);
    forall u | 0 <= u < |r.tasks| ensures TaskShape(r, u) && TaskLocks(r, u) {
      assert TaskShape(s, u) && TaskLocks(s, u);
      var x := s.tasks[u];
      if u != t && InCall(x.pc) {
        forall j | 0 <= j < |x.call.arms| ensures ArmMsg(r.msgs, u, x.call, j) { assert ArmMsg(s.msgs, u, x.call, j); }
      }
    }
    forall c | 0 <= c < |r.chans| ensures ChanShape(r, c) { assert ChanShape(s, c); }
    forall e | 0 <= e < |r.entries| ensures EntryShape(r, e) { assert EntryShape(s, e); }
  }

  /** A list in which no arm parks is left alone. */
  lemma {:induction false} JoiningNone(arms: seq<Arm>, c: nat, put: bool, first: nat)
    requires forall j :: 0 <= j < |arms| ==> arms[j] != Arm(c, put)
    ensures Joining(arms, c, put, first) == []
  {
    if arms != [] { JoiningNone(arms[..|arms| - 1], c, put, first); }
  }

  lemma JoinedElsewhere(x: Chan, arms: seq<Arm>, c: nat, first: nat)
    requires forall j :: 0 <= j < |arms| ==> arms[j].ch != c
    ensures Joined(x, arms, c, first) == x
  {
    JoiningNone(arms, c, false, first);
    JoiningNone(arms, c, true, first);
  }

  lemma ParkList(entries: seq<Entry>, news: seq<Entry>, list: seq<nat>, arms: seq<Arm>, c: nat, put: bool)
    requires ListOk(entries, list, c, put) && |news| == |arms|
    requires forall j :: 0 <= j < |arms| ==> news[j].ch == arms[j].ch && news[j].put == arms[j].put
    ensures ListOk(entries + news, list + Joining(arms, c, put, |entries|), c, put)
  {
    JoiningOk(arms, c, put, |entries|);
    forall i | 0 <= i < |list| ensures Queueable(entries + news, list[i], c, put) {
      assert Queueable(entries, list[i], c, put);
    }
  }

  predicate AtPark(x: Task) { x.pc.Attempt? && !x.pc.two && x.pc.k == |x.call.arms| && !x.call.how.Try? }

  /** Another task does not hold a lock of the parking one. */
  lemma ParkUnseen(s: State, t: nat, u: nat, c: nat)
    requires Shape(s) && t < |s.tasks| && AtPark(s.tasks[t]) && u < |s.tasks| && u != t && c in s.tasks[u].held
    ensures c < |s.chans| && Park(s, t).chans[c] == s.chans[c]
  {
    assert TaskShape(s, t) && TaskLocks(s, u);
    var arms := s.tasks[t].call.arms;
    forall j | 0 <= j < |arms| ensures arms[j].ch != c {
      if arms[j].ch == c { Exclusive(s, t, u, c); }
    }
    JoinedElsewhere(s.chans[c], arms, c, |s.entries|);
  }

  lemma ParkSelfShape(s: State, t: nat)
    requires Shape(s) && t < |s.tasks| && AtPark(s.tasks[t])
    ensures TaskShape(Park(s, t), t) && TaskLocks(Park(s, t), t)
  {
    assert TaskShape(s, t) && TaskLocks(s, t);
  }

  lemma ParkOthers(s: State, t: nat, u: nat)
    requires Shape(s) && t < |s.tasks| && AtPark(s.tasks[t]) && u < |s.tasks| && u != t
    ensures TaskShape(Park(s, t), u) && TaskLocks(Park(s, t), u)
  {
    assert TaskShape(s, u) && TaskLocks(s, u);
    if OnArm(s.tasks[u].pc) { ArmLocked(s, u); }
    forall c | c in s.tasks[u].held ensures c < |s.chans| && Park(s, t).chans[c] == s.chans[c] {
      ParkUnseen(s, t, u, c);
    }
  }

  lemma ParkChans(s: State, t: nat, c: nat)
    requires Shape(s) && t < |s.tasks| && AtPark(s.tasks[t]) && c < |s.chans|
    ensures ChanShape(Park(s, t), c)
  {
    var call := s.tasks[t].call;
    var news := NewEntries(t, call, if call.how.Select? then Some(|s.fired|) else None, s.tasks[t].parked / 2 + 1);
    assert ChanShape(s, c);
    ParkList(s.entries, news, s.chans[c].takers, call.arms, c, false);
    ParkList(s.entries, news, s.chans[c].putters, call.arms, c, true);
  }

  lemma ParkEntries(s: State, t: nat, e: nat)
    requires Shape(s) && t < |s.tasks| && AtPark(s.tasks[t]) && e < |Park(s, t).entries|
    ensures EntryShape(Park(s, t), e)
  {
    assert TaskShape(s, t);
    if e < |s.entries| { assert EntryShape(s, e); }
    else { assert ArmMsg(s.msgs, t, s.tasks[t].call, e - |s.entries|); }
  }

  lemma ShapePark(s: State, t: nat)
    requires Shape(s) && t < |s.tasks| && AtPark(s.tasks[t])
    ensures Shape(Park(s, t))
  {
    var r := Park(s, t);
    forall u | 0 <= u < |r.tasks| ensures TaskShape(r, u) && TaskLocks(r, u) {
      if u == t { ParkSelfShape(s, t); } else { ParkOthers(s, t, u); }
    }
    forall c | 0 <= c < |r.chans| ensures ChanShape(r, c) { ParkChans(s, t, c); }
    forall e | 0 <= e < |r.entries| ensures EntryShape(r, e) { ParkEntries(s, t, e); }
  }

  // --------------------------------------------------------------- compaction

  lemma {:induction false} KeptOk(s: State, list: seq<nat>, c: nat, put: bool)
    requires ListOk(s.entries, list, c, put)
    ensures ListOk(s.entries, Kept(s, list), c, put)
    ensures forall e :: e in Kept(s, list) <==> e in list && !Cancelled(s, e)
  {
    if list != [] {
      var n := |list| - 1;
      KeptOk(s, list[..n], c, put);
      assert list == list[..n] + [list[n]];
      var kept := Kept(s, list[..n]);
      forall i | 0 <= i < |kept| ensures kept[i] < list[n] { assert kept[i] in list[..n]; }
    }
  }

  lemma ShapeCompact(s: State, t: nat, c: nat)
    requires Shape(s) && Enabled(s, Sweep(t, c))
    ensures Shape(Compact(s, c))
  {
    assert TaskShape(s, t) && TaskLocks(s, t) && ChanShape(s, c) && s.chans[c].lock == Some(t);
    KeptOk(s, s.chans[c].takers, c, false);
    KeptOk(s, s.chans[c].putters, c, true);
    ShapeBy(s, t, s.tasks[t], c, Compact(s, c).chans[c]);
    assert s.tasks[t := s.tasks[t]] == s.tasks;
  }

  // -------------------------------------------------------------------- steps

  lemma ShapeDrop(s: State, t: nat, x: Task, ch: Chan)
    requires Shape(s) && WalkOk(s, t)
    requires x == s.tasks[t].(pc := x.pc, owed := x.owed)
    requires HeldOk(x) && InCall(x.pc) && !AnyHead(x.pc)
    requires var a := s.tasks[t].call.arms[s.tasks[t].pc.k];
             && Others(s.chans[a.ch], a.put) != []
             && Shortened(s.chans[a.ch], ch, if a.put then 1 else 0, if a.put then 0 else 1)
    ensures Shape(SetChan(SetTask(s, t, x), s.tasks[t].call.arms[s.tasks[t].pc.k].ch, ch))
  {
    var a := s.tasks[t].call.arms[s.tasks[t].pc.k];
    ArmLocked(s, t);
    ShapeUnlink(s, t, x, a.ch, ch, if a.put then 1 else 0, if a.put then 0 else 1);
  }

  lemma ShapeDropHead(s: State, t: nat)
    requires Shape(s) && WalkOk(s, t)
    requires var a := s.tasks[t].call.arms[s.tasks[t].pc.k]; Others(s.chans[a.ch], a.put) != []
    ensures Shape(DropHead(s, t))
  {
    var x := s.tasks[t]; var a := x.call.arms[x.pc.k];
    assert TaskShape(s, t);
    ShapeDrop(s, t, x.(pc := Walk(x.pc.two, x.pc.k)), Unlinked(s.chans[a.ch], a.put));
  }

  lemma ShapeTakeBuffer(s: State, t: nat, k: nat, c: nat)
    requires Shape(s) && t < |s.tasks| && c < |s.chans| && s.chans[c].buf != [] && s.chans[c].buf[0] < |s.msgs|
    requires InCall(s.tasks[t].pc)
    ensures Shape(TakeBuffer(s, t, k, c))
  {
    var x := s.chans[c]; var m := x.buf[0]; var pc := Release(Took(k, m));
    ShapeTask(s, t, s.tasks[t].(pc := pc));
    ShapeChan(Goto(s, t, pc), c, x.(buf := x.buf[1..], deq := x.deq + [m], taken := x.taken + 1));
    ShapePlace(SetChan(Goto(s, t, pc), c, x.(buf := x.buf[1..], deq := x.deq + [m], taken := x.taken + 1)), m,
        InHand(t));
  }

  lemma ShapePutBuffer(s: State, t: nat, k: nat, c: nat)
    requires Shape(s) && t < |s.tasks| && c < |s.chans| && s.tasks[t].call.base + k < |s.msgs|
    requires InCall(s.tasks[t].pc)
    ensures Shape(PutBuffer(s, t, k, c))
  {
    var x := s.chans[c]; var m := s.tasks[t].call.base + k; var pc := Release(Sent(k));
    var ch := x.(buf := x.buf + [m], skipped := x.skipped || AnyLive(s, x.takers));
    ShapeTask(s, t, s.tasks[t].(pc := pc));
    ShapeChan(Goto(s, t, pc), c, ch);
    ShapePlace(SetChan(Goto(s, t, pc), c, ch), m, InBuf(c, x.taken + |x.buf|));
  }

  lemma ShapeAttempt(s: State, t: nat)
    requires Shape(s) && AttemptOk(s, t) && s.tasks[t].pc.Attempt?
    ensures Shape(StepAttempt(s, t))
  {
    var x := s.tasks[t]; var k := x.pc.k;
    assert TaskShape(s, t);
    if k == |x.call.arms| {
      if !x.call.how.Try? { ShapePark(s, t); } else { ShapeTask(s, t, x.(pc := Release(Empty))); }
    } else {
      ArmLocked(s, t);
      var a := x.call.arms[k]; var c := s.chans[a.ch];
      if !a.put && c.buf != [] { ShapeTakeBuffer(s, t, k, a.ch); }
      else if a.put && !c.closed && x.pc.two && |c.buf| < c.cap { ShapePutBuffer(s, t, k, a.ch); }
      else { ShapeTask(s, t, StepAttempt(s, t).tasks[t]); }
    }
  }

  lemma ShapeWalkEnds(s: State, t: nat)
    requires Shape(s) && WalkOk(s, t) && s.tasks[t].pc.Walk?
    requires var a := s.tasks[t].call.arms[s.tasks[t].pc.k]; Others(s.chans[a.ch], a.put) == []
    ensures Shape(StepWalk(s, t))
  {
    var x := s.tasks[t]; var k := x.pc.k; var a := x.call.arms[k]; var c := s.chans[a.ch];
    assert TaskShape(s, t);
    if a.put && !x.pc.two && |c.buf| < c.cap { ShapePutBuffer(s, t, k, a.ch); }
    else if !(!a.put && c.closed) && x.pc.two { ShapeUnlock(s, t, Scan(k + 1)); }
    else { ShapeTask(s, t, StepWalk(s, t).tasks[t]); }
  }

  lemma ShapeWalkHead(s: State, t: nat)
    requires Shape(s) && WalkOk(s, t) && s.tasks[t].pc.Walk?
    requires var a := s.tasks[t].call.arms[s.tasks[t].pc.k]; Others(s.chans[a.ch], a.put) != []
    ensures Shape(StepWalk(s, t))
  {
    var x := s.tasks[t]; var a := x.call.arms[x.pc.k];
    assert TaskShape(s, t);
    if s.entries[Others(s.chans[a.ch], a.put)[0]].cancelled { ShapeDropHead(s, t); }
    else { ShapeTask(s, t, StepWalk(s, t).tasks[t]); }
  }

  lemma ShapeWalk(s: State, t: nat)
    requires Shape(s) && WalkOk(s, t) && s.tasks[t].pc.Walk?
    ensures Shape(StepWalk(s, t))
  {
    var a := s.tasks[t].call.arms[s.tasks[t].pc.k];
    if Others(s.chans[a.ch], a.put) == [] { ShapeWalkEnds(s, t); } else { ShapeWalkHead(s, t); }
  }

  lemma ShapeLook(s: State, t: nat)
    requires Shape(s) && WalkOk(s, t) && s.tasks[t].pc.Look?
    ensures Shape(StepLook(s, t))
  {
    var r := StepLook(s, t);
    assert TaskShape(s, t);
    if r.tasks[t].pc.Walk? { ShapeDropHead(s, t); } else { ShapeTask(s, t, r.tasks[t]); }
  }

  lemma ShapeFire(s: State, t: nat)
    requires Shape(s) && WalkOk(s, t) && s.tasks[t].pc.Fire?
    ensures Shape(StepFire(s, t))
  {
    var x := s.tasks[t]; var r := StepFire(s, t);
    assert TaskShape(s, t);
    var a := x.call.arms[x.pc.k]; var e := Others(s.chans[a.ch], a.put)[0];
    if FiredOver(s, e) { ShapeDropHead(s, t); }
    else {
      ShapeMarkFired(s, t, e);
      ShapeTask(MarkFired(s, t, e), t, r.tasks[t]);
    }
  }

  lemma ShapeHandOver(s: State, t: nat)
    requires Shape(s) && WalkOk(s, t) && s.tasks[t].pc.Wake?
    requires var a := s.tasks[t].call.arms[s.tasks[t].pc.k]; !s.entries[Others(s.chans[a.ch], a.put)[0]].woken
    ensures Shape(StepWake(s, t))
  {
    var x := s.tasks[t]; var r := StepWake(s, t);
    assert TaskShape(s, t);
    var a := x.call.arms[x.pc.k]; var c := s.chans[a.ch]; var e := Others(c, a.put)[0];
    ShapeDrop(s, t, r.tasks[t], r.chans[a.ch]);
    var s1 := SetChan(SetTask(s, t, r.tasks[t]), a.ch, r.chans[a.ch]);
    ShapeEntry(s1, e, r.entries[e]);
    ShapePlace(SetEntry(s1, e, r.entries[e]), if a.put then x.call.base + x.pc.k else s.entries[e].msg,
               if a.put then InSlot(e) else InHand(t));
  }

  lemma ShapeWake(s: State, t: nat)
    requires Shape(s) && WalkOk(s, t) && s.tasks[t].pc.Wake?
    ensures Shape(StepWake(s, t))
  {
    var x := s.tasks[t]; var a := x.call.arms[x.pc.k];
    if s.entries[Others(s.chans[a.ch], a.put)[0]].woken { ShapeDropHead(s, t); } else { ShapeHandOver(s, t); }
  }

  /** Posting changes tokens, which the shape does not mention. */
  lemma ShapePost(s: State, e: nat)
    requires Shape(s) && EntryOk(s, e)
    ensures Shape(Post(s, e))
  {
    var o := s.entries[e].owner; var r := Post(s, e);
    assert TaskShape(s, o);
    ShapeTask(s, o, r.tasks[o]);
    ShapeSoft(SetTask(s, o, r.tasks[o]), r);
  }

  lemma ShapeDeliver(s: State, t: nat)
    requires Shape(s) && DeliverOk(s, t) && (s.tasks[t].pc.Deliver? || s.tasks[t].pc.PostOut?)
    ensures Shape(StepDeliver(s, t))
  {
    var x := s.tasks[t]; var e := x.owed[0];
    assert TaskShape(s, t);
    if s.tasks[s.entries[e].owner].kind.Fiber? && !Ready(s, e) {
      ShapeTask(s, t, StepDeliver(s, t).tasks[t]);
    } else {
      var x1 := x.(owed := [], pc := if x.pc.Deliver? then Release(x.pc.res) else Return(x.pc.res));
      ShapeTask(s, t, x1);
      ShapePost(SetTask(s, t, x1), e);
    }
  }

  lemma ShapeRelease(s: State, t: nat)
    requires Shape(s) && CanStep(s, t) && (s.tasks[t].pc.Release? || s.tasks[t].pc.ParkRelease?)
    ensures Shape(Step(s, t))
  {
    assert TaskShape(s, t);
    if s.tasks[t].held != [] { ShapeUnlock(s, t, s.tasks[t].pc); } else { ShapeTask(s, t, Step(s, t).tasks[t]); }
  }

  /** A task that holds no lock moves to a program counter at which it holds none. */
  lemma ShapeFree(s: State, t: nat, x: Task)
    requires Shape(s) && t < |s.tasks| && s.tasks[t].held == []
    requires x == s.tasks[t].(pc := x.pc, owed := x.owed, parked := x.parked, queued := x.queued, sem := x.sem)
    requires HeldOk(x) && (InCall(x.pc) ==> InCall(s.tasks[t].pc)) && CloseArg(x.pc, |s.chans|) && !AnyHead(x.pc)
    ensures Shape(SetTask(s, t, x))
  {
    ShapeTask(s, t, x);
  }

  lemma ShapeFinish(s: State, t: nat, x: Task, e: nat)
    requires Shape(s) && t < |s.tasks| && FinishOk(s, x.first, e) && Parked(s.tasks[t].pc) && s.tasks[t].held == []
    requires x == s.tasks[t].(parked := x.parked, sem := x.sem)
    ensures Shape(Finish(s, t, x, e))
  {
    var r := Finish(s, t, x, e);
    ShapeFree(s, t, r.tasks[t]);
    ShapeEntry(SetTask(s, t, r.tasks[t]), e, r.entries[e]);
    var res := r.tasks[t].pc.res;
    if res.Took? { ShapePlace(SetEntry(SetTask(s, t, r.tasks[t]), e, r.entries[e]), res.msg, InHand(t)); }
  }

  lemma ShapeResume(s: State, t: nat)
    requires Shape(s) && ResumeOk(s, t) && (s.tasks[t].pc.Resumed? || s.tasks[t].pc.Wait?)
    ensures Shape(StepResume(s, t))
  {
    var x := s.tasks[t];
    var y := if x.pc.Resumed? then x.(parked := 0) else x.(sem := x.sem - 1);
    assert TaskShape(s, t);
    if x.call.how.Select? { ShapeFree(s, t, y.(pc := Settle(0, None))); }
    else { ShapeFinish(s, t, y, x.first); }
  }

  lemma ShapeSettle(s: State, t: nat)
    requires Shape(s) && SettleOk(s, t) && s.tasks[t].pc.Settle?
    ensures Shape(StepSettle(s, t))
  {
    var x := s.tasks[t]; var j := x.pc.j; var w := x.pc.winner; var r := StepSettle(s, t);
    assert TaskShape(s, t);
    if j < |x.call.arms| {
      ShapeFree(s, t, r.tasks[t]);
      if !s.entries[x.first + j].woken { ShapeEntry(SetTask(s, t, r.tasks[t]), x.first + j, r.entries[x.first + j]); }
    } else if w.None? { ShapeFree(s, t, r.tasks[t]); }
    else { ShapeFinish(s, t, x, x.first + w.value); }
  }

  lemma ShapeReturn(s: State, t: nat)
    requires Shape(s) && CanStep(s, t) && s.tasks[t].pc.Return?
    ensures Shape(Step(s, t))
  {
    var res := s.tasks[t].pc.res;
    assert TaskShape(s, t);
    ShapeFree(s, t, s.tasks[t].(pc := Idle));
    var s1 := Goto(s, t, Idle).(done := s.done + [Done(t, s.tasks[t].call, res)]);
    ShapeSoft(Goto(s, t, Idle), s1);
    if res.Took? { ShapePlace(s1, res.msg, Out(|s.done|)); }
  }

  lemma ShapeCloseNext(s: State, t: nat, x: Task)
    requires Shape(s) && CloseWalkOk(s, t) && CloseTarget(s.chans[s.tasks[t].pc.c]).Some?
    requires x == s.tasks[t].(pc := x.pc, owed := x.owed)
    requires (x.pc.CloseWalk? || x.pc.CloseSignal?) && x.pc.c == s.tasks[t].pc.c
    ensures Shape(SetChan(SetTask(s, t, x), x.pc.c, CloseDrop(s.chans[x.pc.c])))
  {
    var c := x.pc.c;
    assert TaskShape(s, t);
    var i := if s.chans[c].takers != [] then 1 else 0;
    ShapeUnlink(s, t, x, c, CloseDrop(s.chans[c]), i, 1 - i);
  }

  lemma ShapeCloseWalk(s: State, t: nat)
    requires Shape(s) && CloseWalkOk(s, t) && s.tasks[t].pc.CloseWalk?
    ensures Shape(StepCloseWalk(s, t))
  {
    var x := s.tasks[t]; var r := StepCloseWalk(s, t);
    assert TaskShape(s, t);
    if r.tasks[t].pc.ClosePost? { ShapeUnlock(s, t, ClosePost(x.pc.c)); }
    else if r.tasks[t].pc.CloseWalk? { ShapeCloseNext(s, t, r.tasks[t]); }
    else { ShapeTask(s, t, r.tasks[t]); }
  }

  lemma ShapeCloseFire(s: State, t: nat)
    requires Shape(s) && CloseWalkOk(s, t) && s.tasks[t].pc.CloseFire?
    ensures Shape(StepCloseFire(s, t))
  {
    var r := StepCloseFire(s, t); var e := CloseTarget(s.chans[s.tasks[t].pc.c]).value;
    assert TaskShape(s, t);
    if FiredOver(s, e) { ShapeCloseNext(s, t, r.tasks[t]); }
    else {
      ShapeMarkFired(s, t, e);
      ShapeTask(MarkFired(s, t, e), t, r.tasks[t]);
    }
  }

  lemma ShapeCloseWake(s: State, t: nat)
    requires Shape(s) && CloseWalkOk(s, t) && s.tasks[t].pc.CloseWake?
    ensures Shape(StepCloseWake(s, t))
  {
    var r := StepCloseWake(s, t); var c := s.tasks[t].pc.c; var e := CloseTarget(s.chans[c]).value;
    assert TaskShape(s, t);
    ShapeCloseNext(s, t, r.tasks[t]);
    if !s.entries[e].woken {
      ShapeEntry(SetChan(SetTask(s, t, r.tasks[t]), c, CloseDrop(s.chans[c])), e,
        r.entries[e]);
    }
  }

  lemma ShapeCloseLock(s: State, t: nat)
    requires Shape(s) && CanStep(s, t) && s.tasks[t].pc.CloseLock?
    ensures Shape(Step(s, t))
  {
    var c := s.tasks[t].pc.c; var s1 := Lock(s, t, c, CloseWalk(c));
    assert TaskShape(s, t);
    ShapeLock(s, t, c, CloseWalk(c));
    ShapeChan(s1, c, s1.chans[c].(closed := true));
  }

  lemma ShapeCloseSignal(s: State, t: nat)
    requires Shape(s) && CloseSignalOk(s, t) && s.tasks[t].pc.CloseSignal?
    ensures Shape(StepCloseSignal(s, t))
  {
    var x := s.tasks[t]; var n := |x.owed| - 1;
    var x1 := x.(owed := x.owed[..n], pc := CloseWalk(x.pc.c));
    assert TaskShape(s, t);
    ShapeTask(s, t, x1);
    ShapePost(SetTask(s, t, x1), x.owed[n]);
  }

  lemma ShapeClosePost(s: State, t: nat)
    requires Shape(s) && ClosePostOk(s, t) && s.tasks[t].pc.ClosePost?
    ensures Shape(StepClosePost(s, t))
  {
    var x := s.tasks[t];
    assert TaskShape(s, t);
    if x.owed == [] { ShapeTask(s, t, StepClosePost(s, t).tasks[t]); }
    else {
      ShapeTask(s, t, x.(owed := x.owed[1..]));
      if Ready(s, x.owed[0]) { ShapePost(SetTask(s, t, x.(owed := x.owed[1..])), x.owed[0]); }
    }
  }

  lemma ShapeCloseCas(s: State, t: nat)
    requires Shape(s) && CanStep(s, t) && (s.tasks[t].pc.CloseCas? || s.tasks[t].pc.CloseCas2?
             || s.tasks[t].pc.CloseRun?)
    ensures Shape(Step(s, t))
  {
    var r := Step(s, t); var c := s.tasks[t].pc.c;
    assert TaskShape(s, t);
    ShapeFree(s, t, r.tasks[t]);
    if s.tasks[t].pc.CloseRun? || r.tasks[t].pc.CloseLock? { ShapeChan(SetTask(s, t, r.tasks[t]), c, r.chans[c]); }
  }

  lemma ShapeScan(s: State, t: nat)
    requires Shape(s) && t < |s.tasks| && s.tasks[t].pc.Scan?
    requires s.tasks[t].pc.k < |s.tasks[t].call.arms| ==> LockFree(s, s.tasks[t].call.arms[s.tasks[t].pc.k].ch)
    ensures Shape(StepScan(s, t))
  {
    var x := s.tasks[t];
    assert TaskShape(s, t);
    if x.pc.k < |x.call.arms| { ShapeLock(s, t, x.call.arms[x.pc.k].ch, Attempt(true, x.pc.k)); }
    else { ShapeTask(s, t, StepScan(s, t).tasks[t]); }
  }

  lemma ShapeAcquire(s: State, t: nat)
    requires Shape(s) && t < |s.tasks| && s.tasks[t].pc.Acquire?
    requires |s.tasks[t].held| < |s.tasks[t].call.order| ==> LockFree(s, s.tasks[t].call.order[|s.tasks[t].held|])
    ensures Shape(StepAcquire(s, t))
  {
    var x := s.tasks[t];
    assert TaskShape(s, t);
    if |x.held| < |x.call.order| { ShapeLock(s, t, x.call.order[|x.held|], Acquire); }
    else { ShapeTask(s, t, StepAcquire(s, t).tasks[t]); }
  }

  lemma ShapeCloseStep(s: State, t: nat)
    requires Shape(s) && CanStep(s, t) && Closes(s.tasks[t].pc)
    ensures Shape(Step(s, t))
  {
    match s.tasks[t].pc {
      case CloseCas(_) => ShapeCloseCas(s, t);
      case CloseCas2(_) => ShapeCloseCas(s, t);
      case CloseLock(_) => ShapeCloseLock(s, t);
      case CloseWalk(_) => ShapeCloseWalk(s, t);
      case CloseFire(_) => ShapeCloseFire(s, t);
      case CloseWake(_, _) => ShapeCloseWake(s, t);
      case CloseSignal(_) => ShapeCloseSignal(s, t);
      case ClosePost(_) => ShapeClosePost(s, t);
      case CloseRun(_) => ShapeCloseCas(s, t);
      case _ =>
    }
  }

  lemma ShapeWalkStep(s: State, t: nat)
    requires Shape(s) && CanStep(s, t) && Walks(s.tasks[t].pc)
    ensures Shape(Step(s, t))
  {
    match s.tasks[t].pc {
      case Scan(_) => ShapeScan(s, t);
      case Acquire => ShapeAcquire(s, t);
      case Attempt(_, _) => ShapeAttempt(s, t);
      case Walk(_, _) => ShapeWalk(s, t);
      case Look(_, _) => ShapeLook(s, t);
      case Fire(_, _) => ShapeFire(s, t);
      case Wake(_, _, _) => ShapeWake(s, t);
      case _ =>
    }
  }

  lemma ShapeRestStep(s: State, t: nat)
    requires Shape(s) && CanStep(s, t) && !Walks(s.tasks[t].pc) && !Closes(s.tasks[t].pc)
    ensures Shape(Step(s, t))
  {
    match s.tasks[t].pc {
      case Deliver(_, _, _) => ShapeDeliver(s, t);
      case PostOut(_) => ShapeDeliver(s, t);
      case Release(_) => ShapeRelease(s, t);
      case Return(_) => ShapeReturn(s, t);
      case ParkRelease => ShapeRelease(s, t);
      case Yield => ShapeYield(s, t);
      case Switched => ShapeYield(s, t);
      case Resumed => ShapeResume(s, t);
      case Wait => ShapeResume(s, t);
      case Settle(_, _) => ShapeSettle(s, t);
      case _ =>
    }
  }

  lemma ShapeStep(s: State, t: nat)
    requires Shape(s) && CanStep(s, t)
    ensures Shape(Step(s, t))
  {
    if Walks(s.tasks[t].pc) { ShapeWalkStep(s, t); }
    else if Closes(s.tasks[t].pc) { ShapeCloseStep(s, t); }
    else { ShapeRestStep(s, t); }
  }

  lemma ShapeYield(s: State, t: nat)
    requires Shape(s) && CanStep(s, t) && (s.tasks[t].pc.Yield? || s.tasks[t].pc.Switched?)
    ensures Shape(Step(s, t))
  {
    assert TaskShape(s, t);
    ShapeFree(s, t, Step(s, t).tasks[t]);
  }

  lemma ShapePop(s: State, t: nat)
    requires Shape(s) && t < |s.tasks| && s.tasks[t].queued > 0
    ensures Shape(Pop(s, t))
  {
    assert TaskShape(s, t);
    ShapeTask(s, t, Pop(s, t).tasks[t]);
  }

  lemma ShapeCloseCall(s: State, a: Action)
    requires Shape(s) && Enabled(s, a) && (a.CloseCall? || a.CloseDirect? || a.LoopDispatch?)
    ensures Shape(Next(s, a))
  {
    var r := Next(s, a);
    ShapeCloses(s, a.t, r.tasks[a.t]);
    ShapeSoft(SetTask(s, a.t, r.tasks[a.t]), r);
  }

  lemma ShapeCloses(s: State, t: nat, x: Task)
    requires Shape(s) && t < |s.tasks| && s.tasks[t].pc.Idle? && x == s.tasks[t].(pc := x.pc)
    requires x.pc.Idle? || ((x.pc.CloseCas? || x.pc.CloseCas2?) && x.pc.c < |s.chans|)
    ensures Shape(SetTask(s, t, x))
  {
    assert TaskShape(s, t);
    ShapeFree(s, t, x);
  }

  lemma ShapeNext(s: State, a: Action)
    requires Shape(s) && Enabled(s, a)
    ensures Shape(Next(s, a))
  {
    match a {
      case Invoke(t, how, arms, order) => ShapeBegin(s, t, how, arms, order);
      case Advance(t) => ShapeStep(s, t);
      case Resume(t) => ShapePop(s, t);
      case CloseCall(_, _, _) => ShapeCloseCall(s, a);
      case CloseDirect(_, _) => ShapeCloseCall(s, a);
      case LoopDispatch(_) => ShapeCloseCall(s, a);
      case Install(c) => ShapeChan(s, c, SetOnClose(s, c).chans[c]);
      case Sweep(t, c) => ShapeCompact(s, t, c);
    }
  }
}
