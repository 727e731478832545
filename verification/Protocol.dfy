/**
 The channel, select and close protocol as a transition system.

 Any number of channels, fibers and OS threads interleave.  A step is either a single
 atomic operation on a shared word (`cancelled`, `fired`, `woken`, `parked`, `close_guard`,
 a lock, a semaphore, a run queue) or work on data protected by locks that the stepping
 task holds.  Identifiers are positions in the state's sequences; `entries`, `fired`,
 `msgs` and `done` only grow.

 A plain take or put locks one channel, tries it, and parks if it must: that is exactly
 what a select does from Phase 4 on with one arm, so both share their program counters.

 History fields (`Entry.stage`, the entry recorded inside `fired`, `Msg.place`,
 `Chan.deq`, `Chan.taken`, `Chan.skipped`, `Chan.closer`, `Chan.ran`) record what
 happened.  No guard of a step reads them.
 */
module Protocol {
  import opened Common

  // ---------------------------------------------------------------- channels

  datatype Guard = Open | Requested | Closing

  /** History: who won the close. */
  datatype Closer = Nobody | Busy(task: nat) | Finished

  datatype Chan = Chan(
    cap: nat,
    buf: seq<nat>,           // messages, oldest first
    takers: seq<nat>,        // parked entries, earliest first
    putters: seq<nat>,
    closed: bool,
    guard: Guard,
    lock: Option<nat>,       // the task that holds ch->lock
    onClose: Option<nat>,    // installed on-close callback
    installs: nat,           // callbacks offered so far; gives each one its own number
    deq: seq<nat>,           // history: messages in the order they left the channel
    taken: nat,              // history: messages taken out of the buffer
    skipped: bool,           // history: a Phase 2 put buffered past a live taker
    closer: Closer,
    ran: seq<nat>)           // history: callbacks in the order they ran

  // ----------------------------------------------------------------- entries

  /** History: how far the wake-up of an entry has got. */
  datatype Stage = Waiting | Firing(who: nat) | Owed(who: nat) | Posted | Settled

  datatype Entry = Entry(
    owner: nat,
    ch: nat,
    put: bool,
    msg: nat,                // the message of a put entry
    sel: Option<nat>,        // the shared fired flag; None for a plain take or put
    gen: nat,                // parked_gen
    cancelled: bool,
    woken: bool,
    ok: bool,                // GOC_OK, otherwise GOC_CLOSED
    slot: Option<nat>,       // result slot of a take entry
    stage: Stage)

  // ---------------------------------------------------------------- messages

  /** History: where an accepted message is. */
  datatype Place = InBuf(c: nat, p: nat) | InSlot(e: nat) | InHand(t: nat) | Out(i: nat)

  /** Each arm of each call owns one record; a put arm's record is the value it sends. */
  datatype Msg = Msg(sender: nat, ch: nat, put: bool, place: Option<Place>)

  // ------------------------------------------------------------------- tasks

  datatype Arm = Arm(ch: nat, put: bool)

  datatype How = Plain | Try | Select(hasDefault: bool)

  datatype Call = Call(how: How, arms: seq<Arm>, order: seq<nat>, base: nat)

  datatype Res = Took(arm: nat, msg: nat) | Sent(arm: nat) | ClosedAt(arm: nat) | Empty | Default

  datatype PC =
    | Idle
    | Scan(k: nat)                        // Phase 2: about to lock the channel of arm k
    | Acquire                             // Phase 4: taking the locks in ascending order
    | Attempt(two: bool, k: nat)          // about to try arm k (two: Phase 2, else Phase 5)
    | Walk(two: bool, k: nat)             // walking the counterpart list of arm k
    | Look(two: bool, k: nat)             // wake_claim: about to load the owner's parked word
    | Fire(two: bool, k: nat)             // try_claim_wake: about to CAS fired
    | Wake(two: bool, k: nat, e: nat)     // try_claim_wake: about to CAS woken
    | Deliver(two: bool, k: nat, res: Res)// wake: spin and post with the locks held
    | Release(res: Res)                   // unlocking with the result known
    | PostOut(res: Res)                   // after wake_claim: spin and post without locks
    | Return(res: Res)
    | ParkRelease                         // entries queued; unlocking before the yield
    | Yield                               // about to call mco_yield
    | Switched                            // suspended; the worker has not bumped parked yet
    | Suspended
    | Resumed
    | Wait                                // waiting for goc_sync_post or for the posted callback
    | Settle(j: nat, winner: Option<nat>) // Phase 7
    | Abort                               // "no winner after wake"
    | CloseCas(c: nat)
    | CloseCas2(c: nat)
    | CloseLock(c: nat)
    | CloseWalk(c: nat)
    | CloseFire(c: nat)
    | CloseWake(c: nat, e: nat)
    | CloseSignal(c: nat)
    | ClosePost(c: nat)
    | CloseRun(c: nat)

  /** Fibers yield, OS threads wait on a semaphore, and a callback operation is parked by
      the loop thread and continued by a posted callback. */
  datatype Kind = Fiber | Thread | Callback

  datatype Task = Task(
    kind: Kind,
    pc: PC,
    call: Call,
    held: seq<nat>,          // locks held, in the order taken
    owed: seq<nat>,          // entries claimed by this task and not yet posted
    parked: nat,             // the fiber's parked word
    queued: nat,             // posts of this fiber in run queues
    sem: nat,                // posts of this thread's sync object, or of this callback
    first: nat,              // first entry of the current park
    sel: nat)                // fired flag of the current select

  datatype Done = Done(task: nat, call: Call, res: Res)

  datatype State = State(
    chans: seq<Chan>,
    tasks: seq<Task>,
    entries: seq<Entry>,
    fired: seq<Option<nat>>, // Some(e): the flag is set, and the claim of e set it
    msgs: seq<Msg>,
    done: seq<Done>,         // calls that returned, in order
    pending: seq<nat>)       // close dispatches posted to the loop

  // ---------------------------------------------------------------- updates

  function SetTask(s: State, t: nat, x: Task): State
    requires t < |s.tasks|
  { s.(tasks := s.tasks[t := x]) }

  function Goto(s: State, t: nat, pc: PC): State
    requires t < |s.tasks|
  { SetTask(s, t, s.tasks[t].(pc := pc)) }

  function SetChan(s: State, c: nat, x: Chan): State
    requires c < |s.chans|
  { s.(chans := s.chans[c := x]) }

  function SetEntry(s: State, e: nat, x: Entry): State
    requires e < |s.entries|
  { s.(entries := s.entries[e := x]) }

  function SetPlace(s: State, m: nat, p: Place): State
    requires m < |s.msgs|
  { s.(msgs := s.msgs[m := s.msgs[m].(place := Some(p))]) }

  /** The parked word that says the fiber is suspended in the park of generation gen. */
  function Want(gen: nat): nat { 2 * gen + 2 }

  /** goc_take and goc_put in a fiber, and callback operations, post a claimed fiber after
      unlocking (wake_claim); everything else posts with the locks held (wake). */
  predicate PostsOutside(x: Task) { !x.kind.Thread? && x.call.how.Plain? }

  /** The list an arm looks for its counterpart in. */
  function Others(c: Chan, put: bool): seq<nat> { if put then c.takers else c.putters }

  function Unlinked(c: Chan, put: bool): Chan
    requires Others(c, put) != []
  { if put then c.(takers := c.takers[1..]) else c.(putters := c.putters[1..]) }

  predicate Cancelled(s: State, e: nat) { e < |s.entries| && s.entries[e].cancelled }

  /** The claim of e cannot succeed because a sibling arm fired. */
  predicate FiredOver(s: State, e: nat)
  { e < |s.entries| && s.entries[e].sel.Some? && s.entries[e].sel.value < |s.fired|
    && s.fired[s.entries[e].sel.value].Some? }

  /** An entry that a claim would win. */
  predicate Live(s: State, e: nat)
  { e < |s.entries| && !s.entries[e].cancelled && !s.entries[e].woken && !FiredOver(s, e) }

  // ------------------------------------------------------------ call and locks

  ghost predicate IsLockOrder(order: seq<nat>, arms: seq<Arm>) {
    && Ascending(order)
    && (forall j :: 0 <= j < |arms| ==> arms[j].ch in order)
    && (forall i :: 0 <= i < |order| ==> exists j :: 0 <= j < |arms| && arms[j].ch == order[i])
  }

  ghost predicate CanBegin(s: State, t: nat, how: How, arms: seq<Arm>, order: seq<nat>) {
    && t < |s.tasks| && s.tasks[t].pc.Idle?
    && (forall j :: 0 <= j < |arms| ==> arms[j].ch < |s.chans|)
    && (!how.Select? ==> |arms| == 1)
    && (how.Try? ==> !arms[0].put)
    && IsLockOrder(order, arms)
  }

  function Begin(s: State, t: nat, how: How, arms: seq<Arm>, order: seq<nat>): State
    requires t < |s.tasks|
  {
    var call := Call(how, arms, order, |s.msgs|);
    s.(tasks := s.tasks[t := s.tasks[t].(call := call, pc := if how.Select? then Scan(0) else Acquire)],
       msgs := s.msgs + seq(|arms|, j requires 0 <= j < |arms| => Msg(t, arms[j].ch, arms[j].put, None)))
  }

  predicate LockFree(s: State, c: nat) { c < |s.chans| && s.chans[c].lock.None? }

  function Lock(s: State, t: nat, c: nat, pc: PC): State
    requires t < |s.tasks| && c < |s.chans|
  {
    SetChan(SetTask(s, t, s.tasks[t].(held := s.tasks[t].held + [c], pc := pc)),
            c, s.chans[c].(lock := Some(t)))
  }

  /** Release the lock taken last. */
  function Unlock(s: State, t: nat, pc: PC): State
    requires t < |s.tasks| && s.tasks[t].held != []
    requires s.tasks[t].held[|s.tasks[t].held| - 1] < |s.chans|
  {
    var x := s.tasks[t];
    var n := |x.held| - 1;
    SetChan(SetTask(s, t, x.(held := x.held[..n], pc := pc)),
            x.held[n], s.chans[x.held[n]].(lock := None))
  }

  // ------------------------------------------------------- trying an arm

  /** chan_take_from_buffer */
  function TakeBuffer(s: State, t: nat, k: nat, c: nat): State
    requires t < |s.tasks| && c < |s.chans| && s.chans[c].buf != [] && s.chans[c].buf[0] < |s.msgs|
  {
    var x := s.chans[c];
    var m := x.buf[0];
    SetPlace(SetChan(Goto(s, t, Release(Took(k, m))),
                     c, x.(buf := x.buf[1..], deq := x.deq + [m], taken := x.taken + 1)),
             m, InHand(t))
  }

  /** Some live entry is queued in list. */
  ghost predicate AnyLive(s: State, list: seq<nat>) {
    exists i :: 0 <= i < |list| && Live(s, list[i])
  }

  /** chan_put_to_buffer */
  ghost function PutBuffer(s: State, t: nat, k: nat, c: nat): State
    requires t < |s.tasks| && c < |s.chans| && s.tasks[t].call.base + k < |s.msgs|
  {
    var x := s.chans[c];
    var m := s.tasks[t].call.base + k;
    SetPlace(SetChan(Goto(s, t, Release(Sent(k))),
                     c, x.(buf := x.buf + [m], skipped := x.skipped || AnyLive(s, x.takers))),
             m, InBuf(c, x.taken + |x.buf|))
  }

  ghost predicate AttemptOk(s: State, t: nat) {
    t < |s.tasks| && s.tasks[t].pc.Attempt? &&
    var x := s.tasks[t]; var k := x.pc.k;
    if k < |x.call.arms| then
      var a := x.call.arms[k];
      && a.ch < |s.chans| && x.call.base + k < |s.msgs|
      && (s.chans[a.ch].buf != [] ==> s.chans[a.ch].buf[0] < |s.msgs|)
    else k == |x.call.arms| && !x.pc.two 
  }

  ghost function StepAttempt(s: State, t: nat): State
    requires AttemptOk(s, t)
  {
    var x := s.tasks[t]; var k := x.pc.k;
    if k == |x.call.arms| then
      if x.call.how.Try? then Goto(s, t, Release(Empty)) else Park(s, t)
    else
      var a := x.call.arms[k]; var c := s.chans[a.ch];
      if !a.put then
        if c.buf != [] then TakeBuffer(s, t, k, a.ch) else Goto(s, t, Walk(x.pc.two, k))
      else if c.closed then Goto(s, t, Release(ClosedAt(k)))
      else if x.pc.two && |c.buf| < c.cap then PutBuffer(s, t, k, a.ch)
      else Goto(s, t, Walk(x.pc.two, k))
  }

  ghost predicate WalkOk(s: State, t: nat) {
    t < |s.tasks| &&
    var x := s.tasks[t];
    && (x.pc.Walk? || x.pc.Look? || x.pc.Fire? || x.pc.Wake?)
    && x.pc.k < |x.call.arms| && x.call.arms[x.pc.k].ch < |s.chans| && x.call.base + x.pc.k < |s.msgs|
    && (x.pc.two ==> x.held != [] && x.held[|x.held| - 1] < |s.chans|)
    && var list := Others(s.chans[x.call.arms[x.pc.k].ch], x.call.arms[x.pc.k].put);
       if list == [] then x.pc.Walk? else EntryOk(s, list[0])
  }

  predicate EntryOk(s: State, e: nat) {
    && e < |s.entries|
    && s.entries[e].owner < |s.tasks|
    && s.entries[e].msg < |s.msgs|
    && (s.entries[e].sel.Some? ==> s.entries[e].sel.value < |s.fired|)
  }

  /** Drop the head of the walked list and look at the next entry. */
  function DropHead(s: State, t: nat): State
    requires t < |s.tasks| && (s.tasks[t].pc.Walk? || s.tasks[t].pc.Look? || s.tasks[t].pc.Fire? || s.tasks[t].pc.Wake?)
    requires s.tasks[t].pc.k < |s.tasks[t].call.arms| && s.tasks[t].call.arms[s.tasks[t].pc.k].ch < |s.chans|
    requires Others(s.chans[s.tasks[t].call.arms[s.tasks[t].pc.k].ch], s.tasks[t].call.arms[s.tasks[t].pc.k].put) != []
  {
    var x := s.tasks[t]; var a := x.call.arms[x.pc.k];
    SetChan(Goto(s, t, Walk(x.pc.two, x.pc.k)), a.ch, Unlinked(s.chans[a.ch], a.put))
  }

  ghost function StepWalk(s: State, t: nat): State
    requires WalkOk(s, t) && s.tasks[t].pc.Walk?
  {
    var x := s.tasks[t]; var k := x.pc.k; var a := x.call.arms[k]; var c := s.chans[a.ch];
    var list := Others(c, a.put);
    if list == [] then
      if !a.put && c.closed then Goto(s, t, Release(ClosedAt(k)))
      else if a.put && !x.pc.two && |c.buf| < c.cap then PutBuffer(s, t, k, a.ch)
      else if x.pc.two then Unlock(s, t, Scan(k + 1))
      else Goto(s, t, Attempt(false, k + 1))
    else if s.entries[list[0]].cancelled then DropHead(s, t)
    else if PostsOutside(x) then Goto(s, t, Look(x.pc.two, k))
    else Goto(s, t, Fire(x.pc.two, k))
  }

  /** wake_claim's stale check, made of fibers only. */
  ghost function StepLook(s: State, t: nat): State
    requires WalkOk(s, t) && s.tasks[t].pc.Look?
  {
    var x := s.tasks[t]; var a := x.call.arms[x.pc.k];
    var y := s.entries[Others(s.chans[a.ch], a.put)[0]];
    var word := s.tasks[y.owner].parked;
    if s.tasks[y.owner].kind.Fiber? && (word == 0 || word > Want(y.gen)) then DropHead(s, t)
        else Goto(s, t, Fire(x.pc.two, x.pc.k))
  }

  /** try_claim_wake, first CAS: the shared flag, if there is one. */
  function MarkFired(s: State, t: nat, e: nat): State
    requires EntryOk(s, e)
  {
    var y := s.entries[e];
    var s1 := SetEntry(s, e, y.(stage := Firing(t)));
    if y.sel.Some? then s1.(fired := s1.fired[y.sel.value := Some(e)]) else s1
  }

  ghost function StepFire(s: State, t: nat): State
    requires WalkOk(s, t) && s.tasks[t].pc.Fire?
  {
    var x := s.tasks[t]; var a := x.call.arms[x.pc.k];
    var e := Others(s.chans[a.ch], a.put)[0];
    if FiredOver(s, e) then DropHead(s, t)
    else Goto(MarkFired(s, t, e), t, Wake(x.pc.two, x.pc.k, e))
  }

  /** try_claim_wake, second CAS, then the delivery under the channel's lock. */
  ghost function StepWake(s: State, t: nat): State
    requires WalkOk(s, t) && s.tasks[t].pc.Wake?
  {
    var x := s.tasks[t]; var k := x.pc.k; var a := x.call.arms[k]; var c := s.chans[a.ch];
    var e := Others(c, a.put)[0];
    var y := s.entries[e];
    if y.woken then DropHead(s, t) else
    var m := if a.put then x.call.base + k else y.msg;
    var res := if a.put then Sent(k) else Took(k, m);
    var y' := y.(woken := true, ok := true, stage := Owed(t), slot := if a.put then Some(m) else None);
    var out := PostsOutside(x) && s.tasks[y.owner].kind.Fiber?;
    var x' := x.(owed := [e], pc := if out then Release(res) else Deliver(x.pc.two, k, res));
    SetPlace(SetEntry(SetChan(SetTask(s, t, x'), a.ch, Unlinked(c, a.put).(deq := c.deq + [m])), e, y'),
             m, if a.put then InSlot(e) else InHand(t))
  }

  // ------------------------------------------------------------------ posting

  /** The awaited fiber is suspended in the awaited park. */
  predicate Ready(s: State, e: nat)
    requires EntryOk(s, e)
  { s.tasks[s.entries[e].owner].parked == Want(s.entries[e].gen) }

  /** The exit of the spin loops for a fiber that has moved on. */
  predicate StalePark(s: State, e: nat)
    requires EntryOk(s, e)
  { var w := s.tasks[s.entries[e].owner].parked; w == 0 || w > Want(s.entries[e].gen) }

  /** Hand the owner of e its one wake-up: a run-queue post or a semaphore post. */
  function Post(s: State, e: nat): State
    requires EntryOk(s, e)
  {
    var o := s.entries[e].owner;
    var x := s.tasks[o];
    SetEntry(SetTask(s, o, if x.kind.Fiber? then x.(queued := x.queued + 1) else x.(sem := x.sem + 1)),
             e, s.entries[e].(stage := Posted))
  }

  ghost predicate DeliverOk(s: State, t: nat) {
    && t < |s.tasks| && (s.tasks[t].pc.Deliver? || s.tasks[t].pc.PostOut?)
    && |s.tasks[t].owed| == 1 && EntryOk(s, s.tasks[t].owed[0])
    && var e := s.tasks[t].owed[0];
       s.tasks[s.entries[e].owner].kind.Fiber? ==> Ready(s, e) || StalePark(s, e)
  }

  ghost function StepDeliver(s: State, t: nat): State
    requires DeliverOk(s, t)
  {
    var x := s.tasks[t]; var e := x.owed[0]; var o := s.entries[e].owner;
    if s.tasks[o].kind.Fiber? && !Ready(s, e) then
      // stale: wake returns false and the walk goes on; wait_for_fiber_suspended skips the post
      SetTask(s, t, x.(owed := [], pc := if x.pc.Deliver? then Walk(x.pc.two, x.pc.k) else Return(x.pc.res)))
    else
      Post(SetTask(s, t, x.(owed := [], pc := if x.pc.Deliver? then Release(x.pc.res) else Return(x.pc.res))), e)
  }

  ghost function StepRelease(s: State, t: nat): State
    requires t < |s.tasks| && s.tasks[t].pc.Release?
    requires s.tasks[t].held != [] ==> s.tasks[t].held[|s.tasks[t].held| - 1] < |s.chans|
  {
    var x := s.tasks[t];
    if x.held != [] then Unlock(s, t, x.pc)
    else if x.owed != [] then Goto(s, t, PostOut(x.pc.res))
    else Goto(s, t, Return(x.pc.res))
  }

  predicate ResOk(s: State, r: Res) { r.Took? ==> r.msg < |s.msgs| }

  function StepReturn(s: State, t: nat): State
    requires t < |s.tasks| && s.tasks[t].pc.Return? && ResOk(s, s.tasks[t].pc.res)
  {
    var x := s.tasks[t];
    var s1 := Goto(s, t, Idle).(done := s.done + [Done(t, x.call, x.pc.res)]);
    if x.pc.res.Took? then SetPlace(s1, x.pc.res.msg, Out(|s.done|)) else s1
  }

  // ------------------------------------------------------------------ parking

  function NewEntry(t: nat, call: Call, j: nat, sel: Option<nat>, gen: nat): Entry
    requires j < |call.arms|
  {
    Entry(t, call.arms[j].ch, call.arms[j].put, call.base + j, sel, gen,
          false, false, false, None, Waiting)
  }

  /** The entries, from `first` on, of the arms that park on c in the given direction. */
  function Joining(arms: seq<Arm>, c: nat, put: bool, first: nat): (r: seq<nat>)
    decreases |arms|
  {
    if arms == [] then []
    else Joining(arms[..|arms| - 1], c, put, first) +
         (if arms[|arms| - 1] == Arm(c, put) then [first + |arms| - 1] else [])
  }

  function NewEntries(t: nat, call: Call, sel: Option<nat>, gen: nat): (r: seq<Entry>)
    ensures |r| == |call.arms|
    ensures forall j :: 0 <= j < |r| ==> r[j] == NewEntry(t, call, j, sel, gen)
  { seq(|call.arms|, j requires 0 <= j < |call.arms| => NewEntry(t, call, j, sel, gen)) }

  function Joined(x: Chan, arms: seq<Arm>, c: nat, first: nat): Chan {
    x.(takers := x.takers + Joining(arms, c, false, first), putters := x.putters + Joining(arms, c, true, first))
  }

  function JoinedAll(chans: seq<Chan>, arms: seq<Arm>, first: nat): (r: seq<Chan>)
    ensures |r| == |chans|
    ensures forall c :: 0 <= c < |r| ==> r[c] == Joined(chans[c], arms, c, first)
  { seq(|chans|, c requires 0 <= c < |chans| => Joined(chans[c], arms, c, first)) }

  /** Phase 6: every entry is appended to its list while all the locks are held. */
  function Park(s: State, t: nat): State
    requires t < |s.tasks|
  {
    var x := s.tasks[t];
    var n := |s.entries|;
    var sel := if x.call.how.Select? then Some(|s.fired|) else None;
    var gen := x.parked / 2 + 1;
    s.(chans := JoinedAll(s.chans, x.call.arms, n),
       tasks := s.tasks[t := x.(pc := ParkRelease, first := n, sel := |s.fired|,
                                parked := if x.kind.Fiber? then 2 * gen + 1 else x.parked)],
       entries := s.entries + NewEntries(t, x.call, sel, gen),
       fired := if x.call.how.Select? then s.fired + [None] else s.fired)
  }

  ghost function StepParkRelease(s: State, t: nat): State
    requires t < |s.tasks| && s.tasks[t].pc.ParkRelease?
    requires s.tasks[t].held != [] ==> s.tasks[t].held[|s.tasks[t].held| - 1] < |s.chans|
  {
    var x := s.tasks[t];
    if x.held != [] then Unlock(s, t, x.pc)
    else Goto(s, t, if x.kind.Fiber? then Yield else Wait)
  }

  /** pool_worker_fn after mco_resume returned. */
  function Bump(s: State, t: nat): State
    requires t < |s.tasks|
  {
    var x := s.tasks[t];
    SetTask(s, t, x.(pc := Suspended, parked := if x.parked % 2 == 1 then x.parked + 1 else x.parked))
  }

  /** A worker takes the fiber off its run queue and calls mco_resume, which does nothing
      when the coroutine is not suspended. */
  function Pop(s: State, t: nat): State
    requires t < |s.tasks| && s.tasks[t].queued > 0
  {
    var x := s.tasks[t];
    SetTask(s, t, x.(queued := x.queued - 1, pc := if x.pc.Switched? || x.pc.Suspended? then Resumed else x.pc))
  }

  predicate FinishOk(s: State, first: nat, e: nat) {
    && e < |s.entries| && first <= e
    && (s.entries[e].ok && !s.entries[e].put ==> s.entries[e].slot.Some? && s.entries[e].slot.value < |s.msgs|)
  }

  /** Read the result of task t, now in state x, out of its winning entry. */
  function Finish(s: State, t: nat, x: Task, e: nat): State
    requires t < |s.tasks| && FinishOk(s, x.first, e)
  {
    var y := s.entries[e]; var k := e - x.first;
    var res := if !y.ok then ClosedAt(k) else if y.put then Sent(k) else Took(k, y.slot.value);
    var s1 := SetEntry(SetTask(s, t, x.(pc := Return(res))), e, y.(stage := Settled));
    if res.Took? then SetPlace(s1, res.msg, InHand(t)) else s1
  }

  ghost predicate SettleOk(s: State, t: nat) {
    t < |s.tasks| && s.tasks[t].pc.Settle? &&
    var x := s.tasks[t];
    if x.pc.j < |x.call.arms| then x.first + x.pc.j < |s.entries|
    else x.pc.winner.Some? ==> FinishOk(s, x.first, x.first + x.pc.winner.value)
  }

  /** Phase 7: one load of woken, and a store of cancelled for a loser. */
  ghost function StepSettle(s: State, t: nat): State
    requires SettleOk(s, t)
  {
    var x := s.tasks[t]; var j := x.pc.j; var w := x.pc.winner;
    if j < |x.call.arms| then
      var e := x.first + j;
      if s.entries[e].woken then Goto(s, t, Settle(j + 1, Some(j)))
      else SetEntry(Goto(s, t, Settle(j + 1, w)), e, s.entries[e].(cancelled := true))
    else if w.None? then Goto(s, t, Abort)
    else Finish(s, t, x, x.first + w.value)
  }

  ghost predicate ResumeOk(s: State, t: nat) {
    && t < |s.tasks| && (s.tasks[t].pc.Resumed? || (s.tasks[t].pc.Wait? && s.tasks[t].sem > 0))
    && (s.tasks[t].call.how.Select? || FinishOk(s, s.tasks[t].first, s.tasks[t].first))
  }

  /** After the wake-up a select runs Phase 7; a plain operation reads its only entry. */
  ghost function StepResume(s: State, t: nat): State
    requires ResumeOk(s, t)
  {
    var x := s.tasks[t];
    var y := if x.pc.Resumed? then x.(parked := 0) else x.(sem := x.sem - 1);
    if x.call.how.Select? then SetTask(s, t, y.(pc := Settle(0, None))) else Finish(s, t, y, x.first)
  }

  // ------------------------------------------------------------------ closing

  /** goc_close: CAS close_guard from open to requested. */
  function CloseRequest(s: State, t: nat, c: nat, onLoop: bool): State
    requires t < |s.tasks| && c < |s.chans|
  {
    if !s.chans[c].guard.Open? then s
    else
      var s1 := SetChan(s, c, s.chans[c].(guard := Requested));
      if onLoop then Goto(s1, t, CloseCas(c)) else s1.(pending := s1.pending + [c])
  }

  /** on_close_dispatch */
  function Dispatch(s: State, t: nat): State
    requires t < |s.tasks| && s.pending != [] && s.pending[0] < |s.chans|
  {
    var c := s.pending[0];
    var s1 := s.(pending := s.pending[1..]);
    if s.chans[c].guard.Closing? then s1 else Goto(s1, t, CloseCas(c))
  }

  function WinClose(s: State, t: nat, c: nat): State
    requires t < |s.tasks| && c < |s.chans|
  { SetChan(Goto(s, t, CloseLock(c)), c, s.chans[c].(guard := Closing, closer := Busy(t))) }

  function StepCloseCas(s: State, t: nat): State
    requires t < |s.tasks| && (s.tasks[t].pc.CloseCas? || s.tasks[t].pc.CloseCas2?) && s.tasks[t].pc.c < |s.chans|
  {
    var c := s.tasks[t].pc.c; var g := s.chans[c].guard;
    if s.tasks[t].pc.CloseCas? then
      if g.Requested? then WinClose(s, t, c)
      else if g.Open? then Goto(s, t, CloseCas2(c))
      else Goto(s, t, Idle)
    else if g.Open? then WinClose(s, t, c)
    else Goto(s, t, Idle)
  }

  function StepCloseLock(s: State, t: nat): State
    requires t < |s.tasks| && s.tasks[t].pc.CloseLock? && s.tasks[t].pc.c < |s.chans|
  {
    var c := s.tasks[t].pc.c;
    var s1 := Lock(s, t, c, CloseWalk(c));
    SetChan(s1, c, s1.chans[c].(closed := true))
  }

  /** The close walks takers, then putters.  The source clears both lists when the walk is
      over; the lock is held throughout, so dropping each entry as it is passed is the same. */
  function CloseTarget(c: Chan): Option<nat> {
    if c.takers != [] then Some(c.takers[0]) else if c.putters != [] then Some(c.putters[0]) else None
  }

  function CloseDrop(c: Chan): Chan
    requires CloseTarget(c).Some?
  { if c.takers != [] then c.(takers := c.takers[1..]) else c.(putters := c.putters[1..]) }

  ghost predicate CloseWalkOk(s: State, t: nat) {
    t < |s.tasks| &&
    var x := s.tasks[t];
    && (x.pc.CloseWalk? || x.pc.CloseFire? || x.pc.CloseWake?) && x.pc.c < |s.chans|
    && x.held != [] && x.held[|x.held| - 1] < |s.chans|
    && var e := CloseTarget(s.chans[x.pc.c]);
       if e.Some? then EntryOk(s, e.value) else x.pc.CloseWalk?
  }

  function CloseNext(s: State, t: nat): State
    requires t < |s.tasks| && (s.tasks[t].pc.CloseWalk? || s.tasks[t].pc.CloseFire? || s.tasks[t].pc.CloseWake?)
    requires s.tasks[t].pc.c < |s.chans| && CloseTarget(s.chans[s.tasks[t].pc.c]).Some?
  {
    var c := s.tasks[t].pc.c;
    SetChan(Goto(s, t, CloseWalk(c)), c, CloseDrop(s.chans[c]))
  }

  ghost function StepCloseWalk(s: State, t: nat): State
    requires CloseWalkOk(s, t) && s.tasks[t].pc.CloseWalk?
  {
    var c := s.tasks[t].pc.c; var target := CloseTarget(s.chans[c]);
    if target.None? then Unlock(s, t, ClosePost(c))
    else if s.entries[target.value].cancelled then CloseNext(s, t)
    else Goto(s, t, CloseFire(c))
  }

  ghost function StepCloseFire(s: State, t: nat): State
    requires CloseWalkOk(s, t) && s.tasks[t].pc.CloseFire?
  {
    var c := s.tasks[t].pc.c; var e := CloseTarget(s.chans[c]).value;
    if FiredOver(s, e) then CloseNext(s, t) else Goto(MarkFired(s, t, e), t, CloseWake(c, e))
  }

  ghost function StepCloseWake(s: State, t: nat): State
    requires CloseWalkOk(s, t) && s.tasks[t].pc.CloseWake?
  {
    var x := s.tasks[t]; var c := x.pc.c; var e := CloseTarget(s.chans[c]).value; var y := s.entries[e];
    if y.woken then CloseNext(s, t) else
    var pc := if s.tasks[y.owner].kind.Fiber? then CloseWalk(c) else CloseSignal(c);
    SetEntry(SetChan(SetTask(s, t, x.(owed := x.owed + [e], pc := pc)), c, CloseDrop(s.chans[c])),
             e, y.(woken := true, ok := false, stage := Owed(t)))
  }

  ghost predicate CloseSignalOk(s: State, t: nat) {
    && t < |s.tasks| && s.tasks[t].pc.CloseSignal? && s.tasks[t].owed != []
    && EntryOk(s, s.tasks[t].owed[|s.tasks[t].owed| - 1])
  }

  ghost function StepCloseSignal(s: State, t: nat): State
    requires CloseSignalOk(s, t)
  {
    var x := s.tasks[t]; var n := |x.owed| - 1;
    Post(SetTask(s, t, x.(owed := x.owed[..n], pc := CloseWalk(x.pc.c))), x.owed[n])
  }

  ghost predicate ClosePostOk(s: State, t: nat) {
    t < |s.tasks| && s.tasks[t].pc.ClosePost? &&
    var x := s.tasks[t];
    x.owed != [] ==> EntryOk(s, x.owed[0]) && (Ready(s, x.owed[0]) || StalePark(s, x.owed[0]))
  }

  ghost function StepClosePost(s: State, t: nat): State
    requires ClosePostOk(s, t)
  {
    var x := s.tasks[t];
    if x.owed == [] then Goto(s, t, CloseRun(x.pc.c))
    else
      var s1 := SetTask(s, t, x.(owed := x.owed[1..]));
      if Ready(s, x.owed[0]) then Post(s1, x.owed[0]) else s1
  }

  function StepCloseRun(s: State, t: nat): State
    requires t < |s.tasks| && s.tasks[t].pc.CloseRun? && s.tasks[t].pc.c < |s.chans|
  {
    var c := s.tasks[t].pc.c; var x := s.chans[c];
    SetChan(Goto(s, t, Idle), c,
            x.(closer := Finished, ran := if x.onClose.Some? then x.ran + [x.onClose.value] else x.ran))
  }

  /** chan_set_on_close: offer a new callback, which runs at once on a closed channel. */
  function SetOnClose(s: State, c: nat): State
    requires c < |s.chans|
  {
    var x := s.chans[c]; var f := x.installs;
    SetChan(s, c, if x.closed then x.(installs := f + 1, ran := x.ran + [f])
                  else x.(installs := f + 1, onClose := Some(f)))
  }

  // ---------------------------------------------------------------- compaction

  /** The entries of list that are not cancelled, in order. */
  function Kept(s: State, list: seq<nat>): (r: seq<nat>)
  {
    if list == [] then []
    else Kept(s, list[..|list| - 1]) +
         (if Cancelled(s, list[|list| - 1]) then [] else [list[|list| - 1]])
  }

  /** compact_dead_entries on a channel whose lock the task holds and has not walked yet. */
  function Compact(s: State, c: nat): State
    requires c < |s.chans|
  { SetChan(s, c, s.chans[c].(takers := Kept(s, s.chans[c].takers), putters := Kept(s, s.chans[c].putters))) }

  // -------------------------------------------------------------------- steps

  /** Phase 2 locks one channel at a time; the default arm ends the call after it. */
  ghost function StepScan(s: State, t: nat): State
    requires t < |s.tasks| && s.tasks[t].pc.Scan?
    requires s.tasks[t].pc.k < |s.tasks[t].call.arms| ==> LockFree(s, s.tasks[t].call.arms[s.tasks[t].pc.k].ch)
  {
    var x := s.tasks[t]; var k := x.pc.k;
    if k < |x.call.arms| then Lock(s, t, x.call.arms[k].ch, Attempt(true, k))
    else if x.call.how.Select? && x.call.how.hasDefault then Goto(s, t, Return(Default))
    else Goto(s, t, Acquire)
  }

  /** Phase 4 locks them all, in ascending order. */
  ghost function StepAcquire(s: State, t: nat): State
    requires t < |s.tasks| && s.tasks[t].pc.Acquire?
    requires |s.tasks[t].held| < |s.tasks[t].call.order| ==> LockFree(s, s.tasks[t].call.order[|s.tasks[t].held|])
  {
    var x := s.tasks[t];
    if |x.held| < |x.call.order| then Lock(s, t, x.call.order[|x.held|], Acquire) else Goto(s, t, Attempt(false, 0))
  }

  /** The task's next step is not blocked. */
  ghost predicate CanStep(s: State, t: nat) {
    t < |s.tasks| &&
    var x := s.tasks[t];
    match x.pc {
      case Idle => false
      case Scan(k) => k < |x.call.arms| ==> LockFree(s, x.call.arms[k].ch)
      case Acquire => |x.held| < |x.call.order| ==> LockFree(s, x.call.order[|x.held|])
      case Attempt(_, _) => AttemptOk(s, t)
      case Walk(_, _) => WalkOk(s, t)
      case Look(_, _) => WalkOk(s, t)
      case Fire(_, _) => WalkOk(s, t)
      case Wake(_, _, _) => WalkOk(s, t)
      case Deliver(_, _, _) => DeliverOk(s, t)
      case Release(_) => x.held != [] ==> x.held[|x.held| - 1] < |s.chans|
      case PostOut(_) => DeliverOk(s, t)
      case Return(r) => ResOk(s, r)
      case ParkRelease => x.held != [] ==> x.held[|x.held| - 1] < |s.chans|
      case Yield => true
      case Switched => true
      case Suspended => false
      case Resumed => ResumeOk(s, t)
      case Wait => ResumeOk(s, t)
      case Settle(_, _) => SettleOk(s, t)
      case Abort => false
      case CloseCas(c) => c < |s.chans|
      case CloseCas2(c) => c < |s.chans|
      case CloseLock(c) => LockFree(s, c)
      case CloseWalk(_) => CloseWalkOk(s, t)
      case CloseFire(_) => CloseWalkOk(s, t)
      case CloseWake(_, _) => CloseWalkOk(s, t)
      case CloseSignal(_) => CloseSignalOk(s, t)
      case ClosePost(_) => ClosePostOk(s, t)
      case CloseRun(c) => c < |s.chans|
    }
  }

  ghost function Step(s: State, t: nat): State
    requires CanStep(s, t)
  {
    var x := s.tasks[t];
    match x.pc {
      case Scan(_) => StepScan(s, t)
      case Acquire => StepAcquire(s, t)
      case Attempt(_, _) => StepAttempt(s, t)
      case Walk(_, _) => StepWalk(s, t)
      case Look(_, _) => StepLook(s, t)
      case Fire(_, _) => StepFire(s, t)
      case Wake(_, _, _) => StepWake(s, t)
      case Deliver(_, _, _) => StepDeliver(s, t)
      case Release(_) => StepRelease(s, t)
      case PostOut(_) => StepDeliver(s, t)
      case Return(_) => StepReturn(s, t)
      case ParkRelease => StepParkRelease(s, t)
      case Yield => Goto(s, t, Switched)
      case Switched => Bump(s, t)
      case Resumed => StepResume(s, t)
      case Wait => StepResume(s, t)
      case Settle(_, _) => StepSettle(s, t)
      case CloseCas(_) => StepCloseCas(s, t)
      case CloseCas2(_) => StepCloseCas(s, t)
      case CloseLock(_) => StepCloseLock(s, t)
      case CloseWalk(_) => StepCloseWalk(s, t)
      case CloseFire(_) => StepCloseFire(s, t)
      case CloseWake(_, _) => StepCloseWake(s, t)
      case CloseSignal(_) => StepCloseSignal(s, t)
      case ClosePost(_) => StepClosePost(s, t)
      case CloseRun(_) => StepCloseRun(s, t)
      case _ => s
    }
  }

  datatype Action =
    | Invoke(t: nat, how: How, arms: seq<Arm>, order: seq<nat>)
    | Advance(t: nat)
    | Resume(t: nat)
    | CloseCall(t: nat, c: nat, onLoop: bool)
    | CloseDirect(t: nat, c: nat)
    | LoopDispatch(t: nat)
    | Install(c: nat)
    | Sweep(t: nat, c: nat)

  ghost predicate Enabled(s: State, a: Action) {
    match a {
      case Invoke(t, how, arms, order) => CanBegin(s, t, how, arms, order)
      case Advance(t) => CanStep(s, t)
      case Resume(t) => t < |s.tasks| && s.tasks[t].queued > 0
      case CloseCall(t, c, _) => t < |s.tasks| && s.tasks[t].pc.Idle? && c < |s.chans|
      case CloseDirect(t, c) => t < |s.tasks| && s.tasks[t].pc.Idle? && c < |s.chans|
      case LoopDispatch(t) => t < |s.tasks| && s.tasks[t].pc.Idle? && s.pending != [] && s.pending[0] < |s.chans|
      case Install(c) => LockFree(s, c)
      case Sweep(t, c) =>
        && t < |s.tasks| && c < |s.chans| && c in s.tasks[t].held
        && s.tasks[t].pc.Attempt? && !s.tasks[t].pc.two && s.tasks[t].pc.k == 0
    }
  }

  ghost function Next(s: State, a: Action): State
    requires Enabled(s, a)
  {
    match a {
      case Invoke(t, how, arms, order) => Begin(s, t, how, arms, order)
      case Advance(t) => Step(s, t)
      case Resume(t) => Pop(s, t)
      case CloseCall(t, c, onLoop) => CloseRequest(s, t, c, onLoop)
      case CloseDirect(t, c) => Goto(s, t, CloseCas(c))
      case LoopDispatch(t) => Dispatch(s, t)
      case Install(c) => SetOnClose(s, c)
      case Sweep(_, c) => Compact(s, c)
    }
  }

  /** Fresh channels of any capacity, and idle fibers and threads. */
  ghost predicate Init(s: State) {
    && (forall c :: 0 <= c < |s.chans| ==>
          s.chans[c] == Chan(s.chans[c].cap, [], [], [], false, Open, None, None, 0, [], 0, false, Nobody, []))
    && (forall t :: 0 <= t < |s.tasks| ==>
          var x := s.tasks[t]; x.pc.Idle? && x.held == [] && x.owed == [] && x.parked == x.queued == x.sem == 0)
    && s.entries == [] && s.fired == [] && s.msgs == [] && s.done == [] && s.pending == []
  }

  /** A run: every state follows from the one before by an enabled action. */
  ghost predicate IsRun(run: seq<State>, actions: seq<Action>) {
    && |run| == |actions| + 1
    && Init(run[0])
    && (forall i :: 0 <= i < |actions| ==> Enabled(run[i], actions[i]) && run[i + 1] == Next(run[i], actions[i]))
  }
}
