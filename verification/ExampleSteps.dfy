/** The steps of two runs on a channel with room for one message, state by state. */
module ExampleSteps {
  import opened Common
  import opened Protocol

  // One channel with room for one message; thread 0 takes, thread 1 puts.

  const Blank: Chan := Chan(1, [], [], [], false, Open, None, None, 0, [], 0, false, Nobody, [])
  const Take: Call := Call(Plain, [Arm(0, false)], [0], 0)
  const Choose: Call := Call(Select(false), [Arm(0, true)], [0], 1)
  const Put: Call := Call(Plain, [Arm(0, true)], [0], 2)
  const Waiter: Entry := Entry(0, 0, false, 0, None, 1, false, false, false, None, Waiting)
  const First: Done := Done(1, Choose, Sent(0))
  const Chosen: Msg := Msg(1, 0, true, Some(InBuf(0, 0)))

  function Thread_(call: Call, pc: PC, held: seq<nat>): Task { Task(Thread, pc, call, held, [], 0, 0, 0, 0, 0) }

  function Sole(c: Chan, a: Task, b: Task, entries: seq<Entry>, msgs: seq<Msg>, done: seq<Done>): State {
    State([c], [a, b], entries, [], msgs, done, [])
  }

  function Held(c: Chan, t: nat): Chan { c.(lock := Some(t)) }

  /** The taker's way into its park. */
  function Parking(i: nat): State
    requires i <= 8
  {
    var m := [Msg(0, 0, false, None)];
    var b := Thread_(Take, Idle, []);
    if i == 0 then Sole(Blank, b, b, [], [], [])
    else if i == 1 then Sole(Blank, Thread_(Take, Acquire, []), b, [], m, [])
    else if i == 2 then Sole(Held(Blank, 0), Thread_(Take, Acquire, [0]), b, [], m, [])
    else if i == 3 then Sole(Held(Blank, 0), Thread_(Take, Attempt(false, 0), [0]), b, [], m, [])
    else if i == 4 then Sole(Held(Blank, 0), Thread_(Take, Walk(false, 0), [0]), b, [], m, [])
    else if i == 5 then Sole(Held(Blank, 0), Thread_(Take, Attempt(false, 1), [0]), b, [], m, [])
    else if i == 6 then Sole(Held(Blank, 0).(takers := [0]), Thread_(Take, ParkRelease, [0]), b, [Waiter], m, [])
    else if i == 7 then Sole(Blank.(takers := [0]), Thread_(Take, ParkRelease, []), b, [Waiter], m, [])
    else Sole(Blank.(takers := [0]), Thread_(Take, Wait, []), b, [Waiter], m, [])
  }

  /** The select's put arm, tried in Phase 2. */
  function Choosing(i: nat): State
    requires i <= 6
  {
    var a := Thread_(Take, Wait, []);
    var c := Blank.(takers := [0]);
    var full := c.(buf := [1], skipped := true);
    var m := [Msg(0, 0, false, None), Msg(1, 0, true, None)];
    var n := [Msg(0, 0, false, None), Chosen];
    if i == 0 then Parking(8)
    else if i == 1 then Sole(c, a, Thread_(Choose, Scan(0), []), [Waiter], m, [])
    else if i == 2 then Sole(Held(c, 1), a, Thread_(Choose, Attempt(true, 0), [0]), [Waiter], m, [])
    else if i == 3 then Sole(Held(full, 1), a, Thread_(Choose, Release(Sent(0)), [0]), [Waiter], n, [])
    else if i == 4 then Sole(full, a, Thread_(Choose, Release(Sent(0)), []), [Waiter], n, [])
    else if i == 5 then Sole(full, a, Thread_(Choose, Return(Sent(0)), []), [Waiter], n, [])
    else Sole(full, a, Thread_(Choose, Idle, []), [Waiter], n, [First])
  }

  /** The same thread's next put, which finds the taker. */
  function Putting(i: nat): State
    requires i <= 7
  {
    var a := Thread_(Take, Wait, []);
    var full := Blank.(takers := [0], buf := [1], skipped := true);
    var m := [Msg(0, 0, false, None), Chosen, Msg(1, 0, true, None)];
    var n := [Msg(0, 0, false, None), Chosen, Msg(1, 0, true, Some(InSlot(0)))];
    if i == 0 then Choosing(6)
    else if i == 1 then Sole(full, a, Thread_(Put, Acquire, []), [Waiter], m, [First])
    else if i == 2 then Sole(Held(full, 1), a, Thread_(Put, Acquire, [0]), [Waiter], m, [First])
    else if i == 3 then Sole(Held(full, 1), a, Thread_(Put, Attempt(false, 0), [0]), [Waiter], m, [First])
    else if i == 4 then Sole(Held(full, 1), a, Thread_(Put, Walk(false, 0), [0]), [Waiter], m, [First])
    else if i == 5 then Sole(Held(full, 1), a, Thread_(Put, Fire(false, 0), [0]), [Waiter], m, [First])
    else if i == 6 then Sole(Held(full, 1), a, Thread_(Put, Wake(false, 0, 0), [0]), [Waiter.(stage := Firing(1))], m,
        [First])
    else Sole(Held(full, 1).(takers := [], deq := [2]), a,
              Thread_(Put, Deliver(false, 0, Sent(0)), [0]).(owed := [0]),
              [Waiter.(woken := true, ok := true, slot := Some(2), stage := Owed(1))], n, [First])
  }

  /** Two of these states are equal if their parts are. */
  lemma Equal(r: State, q: State)
    requires |r.chans| == |q.chans| == 1 && |r.tasks| == |q.tasks| == 2 && |r.entries| == |q.entries| <= 1
    requires r.fired == q.fired == [] && r.msgs == q.msgs && r.done == q.done && r.pending == q.pending
    requires r.entries == q.entries
    requires var c := r.chans[0]; var d := q.chans[0];
             && c.takers == d.takers && c.putters == d.putters && c.buf == d.buf && c.deq == d.deq && c.ran == d.ran
             && c == d.(takers := c.takers, putters := c.putters, buf := c.buf, deq := c.deq, ran := c.ran)
    requires forall t :: 0 <= t < 2 ==>
               && r.tasks[t].held == q.tasks[t].held && r.tasks[t].owed == q.tasks[t].owed
               && r.tasks[t] == q.tasks[t].(held := r.tasks[t].held, owed := r.tasks[t].owed)
    ensures r == q
  {
    assert r.chans == q.chans && r.tasks == q.tasks;
  }

  lemma OneLock(put: bool)
    ensures IsLockOrder([0], [Arm(0, put)])
  { assert [Arm(0, put)][0].ch == 0; }

  /** s steps to r by a. */
  ghost predicate Follows(s: State, a: Action, r: State) { Enabled(s, a) && Next(s, a) == r }

  lemma ParkingBegins()
    ensures Follows(Parking(0), Invoke(0, Plain, Take.arms, [0]), Parking(1))
  {
    OneLock(false);
    Equal(Next(Parking(0), Invoke(0, Plain, Take.arms, [0])), Parking(1));
  }

  lemma ParkingLocks1()
    ensures Follows(Parking(1), Advance(0), Parking(2))
  { Equal(Step(Parking(1), 0), Parking(2)); }

  lemma ParkingLocks2()
    ensures Follows(Parking(2), Advance(0), Parking(3))
  { Equal(Step(Parking(2), 0), Parking(3)); }

  lemma ParkingTries3()
    ensures Follows(Parking(3), Advance(0), Parking(4))
  { Equal(Step(Parking(3), 0), Parking(4)); }

  lemma ParkingTries4()
    ensures Follows(Parking(4), Advance(0), Parking(5))
  { Equal(Step(Parking(4), 0), Parking(5)); }

  lemma ParkingParks()
    ensures Follows(Parking(5), Advance(0), Parking(6))
  {
    assert [Arm(0, false)][..0] == [];
    assert Joining([Arm(0, false)], 0, false, 0) == [0] && Joining([Arm(0, false)], 0, true, 0) == [];
    assert NewEntries(0, Take, None, 1) == [Waiter];
    Equal(Park(Parking(5), 0), Parking(6));
  }

  lemma ParkingUnlocks()
    ensures Follows(Parking(6), Advance(0), Parking(7))
  { Equal(Step(Parking(6), 0), Parking(7)); }

  lemma ParkingWaits()
    ensures Follows(Parking(7), Advance(0), Parking(8))
  { Equal(Step(Parking(7), 0), Parking(8)); }

  lemma ChoosingBegins0()
    ensures Follows(Choosing(0), Invoke(1, Select(false), Choose.arms, [0]), Choosing(1))
  {
    OneLock(true);
    Equal(Next(Choosing(0), Invoke(1, Select(false), Choose.arms, [0])), Choosing(1));
  }

  lemma ChoosingBegins1()
    ensures Follows(Choosing(1), Advance(1), Choosing(2))
  { Equal(Step(Choosing(1), 1), Choosing(2)); }

  lemma ChoosingBuffers()
    ensures Follows(Choosing(2), Advance(1), Choosing(3))
  {
    assert Live(Choosing(2), Choosing(2).chans[0].takers[0]);
    Equal(Step(Choosing(2), 1), Choosing(3));
  }

  lemma ChoosingReturns3()
    ensures Follows(Choosing(3), Advance(1), Choosing(4))
  { Equal(Step(Choosing(3), 1), Choosing(4)); }

  lemma ChoosingReturns4()
    ensures Follows(Choosing(4), Advance(1), Choosing(5))
  { Equal(Step(Choosing(4), 1), Choosing(5)); }

  lemma ChoosingReturns5()
    ensures Follows(Choosing(5), Advance(1), Choosing(6))
  { Equal(Step(Choosing(5), 1), Choosing(6)); }

  lemma PuttingBegins()
    ensures Follows(Putting(0), Invoke(1, Plain, Put.arms, [0]), Putting(1))
  {
    OneLock(true);
    Equal(Next(Putting(0), Invoke(1, Plain, Put.arms, [0])), Putting(1));
  }

  lemma PuttingLocks1()
    ensures Follows(Putting(1), Advance(1), Putting(2))
  { Equal(Step(Putting(1), 1), Putting(2)); }

  lemma PuttingLocks2()
    ensures Follows(Putting(2), Advance(1), Putting(3))
  { Equal(Step(Putting(2), 1), Putting(3)); }

  lemma PuttingTries3()
    ensures Follows(Putting(3), Advance(1), Putting(4))
  { Equal(Step(Putting(3), 1), Putting(4)); }

  lemma PuttingTries4()
    ensures Follows(Putting(4), Advance(1), Putting(5))
  { Equal(Step(Putting(4), 1), Putting(5)); }

  lemma PuttingFires()
    ensures Follows(Putting(5), Advance(1), Putting(6))
  { Equal(Step(Putting(5), 1), Putting(6)); }

  lemma HandedIs()
    requires WalkOk(Putting(6), 1)
    ensures StepWake(Putting(6), 1) == Putting(7)
  {
    assert [0][1..] == [] && [] + [2] == [2];
    Equal(StepWake(Putting(6), 1), Putting(7));
  }

  lemma PuttingWakes()
    ensures Follows(Putting(6), Advance(1), Putting(7))
  {
    assert WalkOk(Putting(6), 1);
    HandedIs();
  }

  function RunState(i: nat): State
    requires i <= 21
  { if i <= 8 then Parking(i) else if i <= 14 then Choosing(i - 8) else Putting(i - 14) }

  function RunAction(i: nat): Action
    requires i < 21
  {
    if i == 0 then Invoke(0, Plain, Take.arms, [0])
    else if i < 8 then Advance(0)
    else if i == 8 then Invoke(1, Select(false), Choose.arms, [0])
    else if i < 14 then Advance(1)
    else if i == 14 then Invoke(1, Plain, Put.arms, [0])
    else Advance(1)
  }

  lemma RunFollows(i: nat)
    requires i < 21
    ensures Follows(RunState(i), RunAction(i), RunState(i + 1))
  {
    if i == 0 { ParkingBegins(); }
    else if i == 1 { ParkingLocks1(); }
    else if i == 2 { ParkingLocks2(); }
    else if i == 3 { ParkingTries3(); }
    else if i == 4 { ParkingTries4(); }
    else if i == 5 { ParkingParks(); }
    else if i == 6 { ParkingUnlocks(); }
    else if i == 7 { ParkingWaits(); }
    else if i == 8 { ChoosingBegins0(); }
    else if i == 9 { ChoosingBegins1(); }
    else if i == 10 { ChoosingBuffers(); }
    else if i == 11 { ChoosingReturns3(); }
    else if i == 12 { ChoosingReturns4(); }
    else if i == 13 { ChoosingReturns5(); }
    else if i == 14 { PuttingBegins(); }
    else if i == 15 { PuttingLocks1(); }
    else if i == 16 { PuttingLocks2(); }
    else if i == 17 { PuttingTries3(); }
    else if i == 18 { PuttingTries4(); }
    else if i == 19 { PuttingFires(); }
    else { PuttingWakes(); }
  }

  // ------------------------------------------------- a putter parked beside a free slot

  // Thread 0 puts twice, thread 1 takes once.

  const Put0: Call := Call(Plain, [Arm(0, true)], [0], 0)
  const Put1: Call := Call(Plain, [Arm(0, true)], [0], 1)
  const Take2: Call := Call(Plain, [Arm(0, false)], [0], 2)
  const Putter: Entry := Entry(0, 0, true, 1, None, 1, false, false, false, None, Waiting)
  const Done0: Done := Done(0, Put0, Sent(0))

  function Sent0(place: Place): Msg { Msg(0, 0, true, Some(place)) }

  /** The first put finds room. */
  function Filling(i: nat): State
    requires i <= 8
  {
    var b := Thread_(Put0, Idle, []);
    var m := [Msg(0, 0, true, None)];
    var n := [Sent0(InBuf(0, 0))];
    var full := Blank.(buf := [0]);
    if i == 0 then Sole(Blank, b, b, [], [], [])
    else if i == 1 then Sole(Blank, Thread_(Put0, Acquire, []), b, [], m, [])
    else if i == 2 then Sole(Held(Blank, 0), Thread_(Put0, Acquire, [0]), b, [], m, [])
    else if i == 3 then Sole(Held(Blank, 0), Thread_(Put0, Attempt(false, 0), [0]), b, [], m, [])
    else if i == 4 then Sole(Held(Blank, 0), Thread_(Put0, Walk(false, 0), [0]), b, [], m, [])
    else if i == 5 then Sole(Held(full, 0), Thread_(Put0, Release(Sent(0)), [0]), b, [], n, [])
    else if i == 6 then Sole(full, Thread_(Put0, Release(Sent(0)), []), b, [], n, [])
    else if i == 7 then Sole(full, Thread_(Put0, Return(Sent(0)), []), b, [], n, [])
    else Sole(full, b, b, [], n, [Done0])
  }

  /** The second one does not, and parks. */
  function Blocking(i: nat): State
    requires i <= 8
  {
    var b := Thread_(Put0, Idle, []);
    var m := [Sent0(InBuf(0, 0)), Msg(0, 0, true, None)];
    var full := Blank.(buf := [0]);
    var waits := full.(putters := [0]);
    if i == 0 then Filling(8)
    else if i == 1 then Sole(full, Thread_(Put1, Acquire, []), b, [], m, [Done0])
    else if i == 2 then Sole(Held(full, 0), Thread_(Put1, Acquire, [0]), b, [], m, [Done0])
    else if i == 3 then Sole(Held(full, 0), Thread_(Put1, Attempt(false, 0), [0]), b, [], m, [Done0])
    else if i == 4 then Sole(Held(full, 0), Thread_(Put1, Walk(false, 0), [0]), b, [], m, [Done0])
    else if i == 5 then Sole(Held(full, 0), Thread_(Put1, Attempt(false, 1), [0]), b, [], m, [Done0])
    else if i == 6 then Sole(Held(waits, 0), Thread_(Put1, ParkRelease, [0]), b, [Putter], m, [Done0])
    else if i == 7 then Sole(waits, Thread_(Put1, ParkRelease, []), b, [Putter], m, [Done0])
    else Sole(waits, Thread_(Put1, Wait, []), b, [Putter], m, [Done0])
  }

  /** The take empties the buffer and leaves the putter alone. */
  function Taking(i: nat): State
    requires i <= 7
  {
    var a := Thread_(Put1, Wait, []);
    var m := [Sent0(InBuf(0, 0)), Msg(0, 0, true, None), Msg(1, 0, false, None)];
    var n := m[0 := Sent0(InHand(1))];
    var waits := Blank.(buf := [0], putters := [0]);
    var room := Blank.(putters := [0], deq := [0], taken := 1);
    if i == 0 then Blocking(8)
    else if i == 1 then Sole(waits, a, Thread_(Take2, Acquire, []), [Putter], m, [Done0])
    else if i == 2 then Sole(Held(waits, 1), a, Thread_(Take2, Acquire, [0]), [Putter], m, [Done0])
    else if i == 3 then Sole(Held(waits, 1), a, Thread_(Take2, Attempt(false, 0), [0]), [Putter], m, [Done0])
    else if i == 4 then Sole(Held(room, 1), a, Thread_(Take2, Release(Took(0, 0)), [0]), [Putter], n, [Done0])
    else if i == 5 then Sole(room, a, Thread_(Take2, Release(Took(0, 0)), []), [Putter], n, [Done0])
    else if i == 6 then Sole(room, a, Thread_(Take2, Return(Took(0, 0)), []), [Putter], n, [Done0])
    else Sole(room, a, Thread_(Take2, Idle, []), [Putter], m[0 := Sent0(Out(1))], [Done0, Done(1, Take2, Took(0, 0))])
  }

  lemma FillingBegins()
    ensures Follows(Filling(0), Invoke(0, Plain, Put0.arms, [0]), Filling(1))
  {
    OneLock(true);
    Equal(Next(Filling(0), Invoke(0, Plain, Put0.arms, [0])), Filling(1));
  }

  lemma FillingLocks1()
    ensures Follows(Filling(1), Advance(0), Filling(2))
  { Equal(Step(Filling(1), 0), Filling(2)); }

  lemma FillingLocks2()
    ensures Follows(Filling(2), Advance(0), Filling(3))
  { Equal(Step(Filling(2), 0), Filling(3)); }

  lemma FillingTries3()
    ensures Follows(Filling(3), Advance(0), Filling(4))
  { Equal(Step(Filling(3), 0), Filling(4)); }

  lemma FillingBuffers()
    ensures Follows(Filling(4), Advance(0), Filling(5))
  { Equal(Step(Filling(4), 0), Filling(5)); }

  lemma FillingUnlocks()
    ensures Follows(Filling(5), Advance(0), Filling(6))
  { Equal(Step(Filling(5), 0), Filling(6)); }

  lemma FillingReturns6()
    ensures Follows(Filling(6), Advance(0), Filling(7))
  { Equal(Step(Filling(6), 0), Filling(7)); }

  lemma FillingReturns7()
    ensures Follows(Filling(7), Advance(0), Filling(8))
  { Equal(Step(Filling(7), 0), Filling(8)); }

  lemma BlockingBegins()
    ensures Follows(Blocking(0), Invoke(0, Plain, Put1.arms, [0]), Blocking(1))
  {
    OneLock(true);
    Equal(Next(Blocking(0), Invoke(0, Plain, Put1.arms, [0])), Blocking(1));
  }

  lemma BlockingLocks1()
    ensures Follows(Blocking(1), Advance(0), Blocking(2))
  { Equal(Step(Blocking(1), 0), Blocking(2)); }

  lemma BlockingLocks2()
    ensures Follows(Blocking(2), Advance(0), Blocking(3))
  { Equal(Step(Blocking(2), 0), Blocking(3)); }

  lemma BlockingTries3()
    ensures Follows(Blocking(3), Advance(0), Blocking(4))
  { Equal(Step(Blocking(3), 0), Blocking(4)); }

  lemma BlockingTries4()
    ensures Follows(Blocking(4), Advance(0), Blocking(5))
  { Equal(Step(Blocking(4), 0), Blocking(5)); }

  lemma BlockingParks()
    ensures Follows(Blocking(5), Advance(0), Blocking(6))
  {
    assert [Arm(0, true)][..0] == [];
    assert Joining([Arm(0, true)], 0, true, 0) == [0] && Joining([Arm(0, true)], 0, false, 0) == [];
    assert NewEntries(0, Put1, None, 1) == [Putter];
    Equal(Step(Blocking(5), 0), Blocking(6));
  }

  lemma BlockingUnlocks()
    ensures Follows(Blocking(6), Advance(0), Blocking(7))
  { Equal(Step(Blocking(6), 0), Blocking(7)); }

  lemma BlockingWaits()
    ensures Follows(Blocking(7), Advance(0), Blocking(8))
  { Equal(Step(Blocking(7), 0), Blocking(8)); }

  lemma TakingBegins()
    ensures Follows(Taking(0), Invoke(1, Plain, Take2.arms, [0]), Taking(1))
  {
    OneLock(false);
    Equal(Next(Taking(0), Invoke(1, Plain, Take2.arms, [0])), Taking(1));
  }

  lemma TakingLocks1()
    ensures Follows(Taking(1), Advance(1), Taking(2))
  { Equal(Step(Taking(1), 1), Taking(2)); }

  lemma TakingLocks2()
    ensures Follows(Taking(2), Advance(1), Taking(3))
  { Equal(Step(Taking(2), 1), Taking(3)); }

  lemma TakenIs()
    ensures TakeBuffer(Taking(3), 1, 0, 0) == Taking(4)
  {
    assert [0][1..] == [] && [] + [0] == [0];
    Equal(TakeBuffer(Taking(3), 1, 0, 0), Taking(4));
  }

  lemma TakingTakes()
    ensures Follows(Taking(3), Advance(1), Taking(4))
  {
    TakenIs();
    assert AttemptOk(Taking(3), 1) && StepAttempt(Taking(3), 1) == TakeBuffer(Taking(3), 1, 0, 0);
  }

  lemma TakingUnlocks()
    ensures Follows(Taking(4), Advance(1), Taking(5))
  { Equal(Step(Taking(4), 1), Taking(5)); }

  lemma TakingReturns5()
    ensures Follows(Taking(5), Advance(1), Taking(6))
  { Equal(Step(Taking(5), 1), Taking(6)); }

  lemma TakingReturns6()
    ensures Follows(Taking(6), Advance(1), Taking(7))
  { Equal(Step(Taking(6), 1), Taking(7)); }

  function RoomState(i: nat): State
    requires i <= 23
  { if i <= 8 then Filling(i) else if i <= 16 then Blocking(i - 8) else Taking(i - 16) }

  function RoomAction(i: nat): Action
    requires i < 23
  {
    if i == 0 then Invoke(0, Plain, Put0.arms, [0])
    else if i == 8 then Invoke(0, Plain, Put1.arms, [0])
    else if i == 16 then Invoke(1, Plain, Take2.arms, [0])
    else if i < 16 then Advance(0)
    else Advance(1)
  }

  lemma RoomFollows(i: nat)
    requires i < 23
    ensures Follows(RoomState(i), RoomAction(i), RoomState(i + 1))
  {
    if i == 0 { FillingBegins(); }
    else if i == 1 { FillingLocks1(); }
    else if i == 2 { FillingLocks2(); }
    else if i == 3 { FillingTries3(); }
    else if i == 4 { FillingBuffers(); }
    else if i == 5 { FillingUnlocks(); }
    else if i == 6 { FillingReturns6(); }
    else if i == 7 { FillingReturns7(); }
    else if i == 8 { BlockingBegins(); }
    else if i == 9 { BlockingLocks1(); }
    else if i == 10 { BlockingLocks2(); }
    else if i == 11 { BlockingTries3(); }
    else if i == 12 { BlockingTries4(); }
    else if i == 13 { BlockingParks(); }
    else if i == 14 { BlockingUnlocks(); }
    else if i == 15 { BlockingWaits(); }
    else if i == 16 { TakingBegins(); }
    else if i == 17 { TakingLocks1(); }
    else if i == 18 { TakingLocks2(); }
    else if i == 19 { TakingTakes(); }
    else if i == 20 { TakingUnlocks(); }
    else if i == 21 { TakingReturns5(); }
    else { TakingReturns6(); }
  }
}
