/**
 Two runs on a channel with room for one message.  In the first, the Phase 2 put arm of a select
 buffers its message beside a parked taker, and a later put of the same sender then overtakes it.
 In the second, a putter stays parked beside a free slot when nothing can move any more.
 */
module ProtocolExamples {
  import opened Common
  import opened Protocol
  import opened ProtocolMessages
  import opened ProtocolTheorems
  import opened ExampleSteps

  /** After the Phase 2 put the lock is free and a live taker sits beside a buffered message;
      two calls later the messages of one sender leave the channel out of order. */
  lemma Phase2PutFails() returns (run: seq<State>, actions: seq<Action>)
    ensures IsRun(run, actions) && |run| == 22
    ensures |run[12].chans| == 1 && run[12].chans[0].lock.None? && TakerBesideValue(run[12], 0)
    ensures |run[21].chans| == 1 && !InOrder(run[21].msgs, run[21].chans[0].deq + run[21].chans[0].buf)
  {
    run := seq(22, i requires 0 <= i < 22 => RunState(i));
    actions := seq(21, i requires 0 <= i < 21 => RunAction(i));
    forall i | 0 <= i < |actions| ensures Enabled(run[i], actions[i]) && run[i + 1] == Next(run[i], actions[i]) {
      RunFollows(i);
    }
    assert run[12] == Choosing(4) && Live(Choosing(4), Choosing(4).chans[0].takers[0]);
    var flow := run[21].chans[0].deq + run[21].chans[0].buf;
    assert run[21] == Putting(7) && flow == [2, 1];
    assert SameSender(run[21].msgs, flow[0], flow[1]);
  }

  /** Nothing can move any more, the put of thread 0 is parked and live, and the buffer of its
      open channel has a free slot. */
  lemma StuckBesideRoom() returns (run: seq<State>, actions: seq<Action>)
    ensures IsRun(run, actions) && |run| == 24
    ensures var s := run[23];
            && Stuck(s) && |s.tasks| == 2 && s.tasks[0].pc.Wait? && s.tasks[0].call.arms == [Arm(0, true)]
            && Live(s, s.tasks[0].first) && |s.chans| == 1 && !s.chans[0].closed && |s.chans[0].buf| < s.chans[0].cap
  {
    run := seq(24, i requires 0 <= i < 24 => RoomState(i));
    actions := seq(23, i requires 0 <= i < 23 => RoomAction(i));
    forall i | 0 <= i < |actions| ensures Enabled(run[i], actions[i]) && run[i + 1] == Next(run[i], actions[i]) {
      RoomFollows(i);
    }
    assert run[23] == Taking(7);
  }
}
