/** Two runs in which goc_stats_flush returns early. */
module StatsExamples {
  import opened Common
  import opened StatsQueue
  import opened StatsFlush

  const SENTINEL := Item(0, false)
  const BARRIER := Item(0, true)
  const SEVEN := Item(7, false)
  const EIGHT := Item(8, false)

  ghost predicate Does(q: Queue, s: Step, n: Queue) { Enabled(q, s) && Safe(q, s) && n == Next(q, s) }

  function First(i: nat): Queue {
    if i == 0 then
      Queue(map[0 := Node(None, SENTINEL)],
            0, 0, [Idle, Idle], Asleep, false, false,
            [], [], [0])
    else if i == 1 then
      Queue(map[0 := Node(None, SENTINEL)],
            0, 0, [Cleared, Idle], Asleep, false, false,
            [], [], [0])
    else if i == 2 then
      Queue(map[0 := Node(None, SENTINEL), 1 := Node(None, BARRIER)],
            0, 0, [Made(1, true), Idle], Asleep, false, false,
            [], [], [0])
    else if i == 3 then
      Queue(map[0 := Node(None, SENTINEL), 1 := Node(None, BARRIER)],
            1, 0, [Swapped(1, 0, 0, true), Idle], Asleep, false, false,
            [BARRIER], [], [0, 1])
    else if i == 4 then
      Queue(map[0 := Node(Some(1), SENTINEL), 1 := Node(None, BARRIER)],
            1, 0, [Waiting(0), Idle], Asleep, false, false,
            [BARRIER], [], [0, 1])
    else if i == 5 then
      Queue(map[0 := Node(Some(1), SENTINEL), 1 := Node(None, BARRIER)],
            1, 0, [Waiting(0), Idle], Ready, false, false,
            [BARRIER], [], [0, 1])
    else if i == 6 then
      Queue(map[0 := Node(Some(1), SENTINEL), 1 := Node(None, BARRIER)],
            1, 0, [Waiting(0), Idle], Popping(1), false, false,
            [BARRIER], [], [0, 1])
    else if i == 7 then
      Queue(map[0 := Node(Some(1), SENTINEL), 1 := Node(None, BARRIER)],
            1, 1, [Waiting(0), Idle], Freeing(0), true, false,
            [BARRIER], [BARRIER], [1])
    else if i == 8 then
      Queue(map[1 := Node(None, BARRIER)],
            1, 1, [Waiting(0), Idle], Ready, true, false,
            [BARRIER], [BARRIER], [1])
    else
      Queue(map[1 := Node(None, BARRIER)],
            1, 1, [Waiting(0), Idle], Drained, true, false,
            [BARRIER], [BARRIER], [1])
  }

  function Second(i: nat): Queue {
    if i == 0 then
      Queue(map[1 := Node(None, BARRIER)],
            1, 1, [Waiting(0), Idle], Drained, true, false,
            [BARRIER], [BARRIER], [1])
    else if i == 1 then
      Queue(map[1 := Node(None, BARRIER), 2 := Node(None, SEVEN)],
            1, 1, [Waiting(0), Made(2, false)], Drained, true, false,
            [BARRIER], [BARRIER], [1])
    else if i == 2 then
      Queue(map[1 := Node(None, BARRIER), 2 := Node(None, SEVEN)],
            2, 1, [Waiting(0), Swapped(2, 1, 1, false)], Drained, true, false,
            [BARRIER, SEVEN], [BARRIER], [1, 2])
    else if i == 3 then
      Queue(map[1 := Node(Some(2), BARRIER), 2 := Node(None, SEVEN)],
            2, 1, [Waiting(0), Idle], Drained, true, false,
            [BARRIER, SEVEN], [BARRIER], [1, 2])
    else if i == 4 then
      Queue(map[1 := Node(Some(2), BARRIER), 2 := Node(None, SEVEN)],
            2, 1, [Waiting(0), Cleared], Drained, true, false,
            [BARRIER, SEVEN], [BARRIER], [1, 2])
    else if i == 5 then
      Queue(map[1 := Node(Some(2), BARRIER), 2 := Node(None, SEVEN), 3 := Node(None, BARRIER)],
            2, 1, [Waiting(0), Made(3, true)], Drained, true, false,
            [BARRIER, SEVEN], [BARRIER], [1, 2])
    else if i == 6 then
      Queue(map[1 := Node(Some(2), BARRIER), 2 := Node(None, SEVEN), 3 := Node(None, BARRIER)],
            3, 1, [Waiting(0), Swapped(3, 2, 2, true)], Drained, true, false,
            [BARRIER, SEVEN, BARRIER], [BARRIER], [1, 2, 3])
    else if i == 7 then
      Queue(map[1 := Node(Some(2), BARRIER), 2 := Node(Some(3), SEVEN), 3 := Node(None, BARRIER)],
            3, 1, [Waiting(0), Waiting(2)], Drained, true, false,
            [BARRIER, SEVEN, BARRIER], [BARRIER], [1, 2, 3])
    else if i == 8 then
      Queue(map[1 := Node(Some(2), BARRIER), 2 := Node(Some(3), SEVEN), 3 := Node(None, BARRIER)],
            3, 1, [Waiting(0), Waiting(2)], Asleep, false, true,
            [BARRIER, SEVEN, BARRIER], [BARRIER], [1, 2, 3])
    else
      Queue(map[1 := Node(Some(2), BARRIER), 2 := Node(Some(3), SEVEN), 3 := Node(None, BARRIER)],
            3, 1, [Waiting(0), Idle], Asleep, false, true,
            [BARRIER, SEVEN, BARRIER], [BARRIER], [1, 2, 3])
  }

  function Third(i: nat): Queue {
    if i == 0 then
      Queue(map[1 := Node(Some(2), BARRIER), 2 := Node(Some(3), SEVEN), 3 := Node(None, BARRIER)],
            3, 1, [Waiting(0), Idle], Asleep, false, true,
            [BARRIER, SEVEN, BARRIER], [BARRIER], [1, 2, 3])
    else if i == 1 then
      Queue(map[1 := Node(Some(2), BARRIER), 2 := Node(Some(3), SEVEN), 3 := Node(None, BARRIER)],
            3, 1, [Idle, Idle], Asleep, false, true,
            [BARRIER, SEVEN, BARRIER], [BARRIER], [1, 2, 3])
    else if i == 2 then
      Queue(map[1 := Node(Some(2), BARRIER), 2 := Node(Some(3), SEVEN), 3 := Node(None, BARRIER),
                4 := Node(None, EIGHT)],
            3, 1, [Idle, Made(4, false)], Asleep, false, true,
            [BARRIER, SEVEN, BARRIER], [BARRIER], [1, 2, 3])
    else if i == 3 then
      Queue(map[1 := Node(Some(2), BARRIER), 2 := Node(Some(3), SEVEN), 3 := Node(None, BARRIER),
                4 := Node(None, EIGHT)],
            4, 1, [Idle, Swapped(4, 3, 3, false)], Asleep, false, true,
            [BARRIER, SEVEN, BARRIER, EIGHT], [BARRIER], [1, 2, 3, 4])
    else if i == 4 then
      Queue(map[1 := Node(Some(2), BARRIER), 2 := Node(Some(3), SEVEN), 3 := Node(None, BARRIER),
                4 := Node(None, EIGHT)],
            4, 1, [Cleared, Swapped(4, 3, 3, false)], Asleep, false, false,
            [BARRIER, SEVEN, BARRIER, EIGHT], [BARRIER], [1, 2, 3, 4])
    else if i == 5 then
      Queue(map[1 := Node(Some(2), BARRIER), 2 := Node(Some(3), SEVEN), 3 := Node(None, BARRIER),
                4 := Node(None, EIGHT), 5 := Node(None, BARRIER)],
            4, 1, [Made(5, true), Swapped(4, 3, 3, false)], Asleep, false, false,
            [BARRIER, SEVEN, BARRIER, EIGHT], [BARRIER], [1, 2, 3, 4])
    else if i == 6 then
      Queue(map[1 := Node(Some(2), BARRIER), 2 := Node(Some(3), SEVEN), 3 := Node(None, BARRIER),
                4 := Node(None, EIGHT), 5 := Node(None, BARRIER)],
            5, 1, [Swapped(5, 4, 4, true), Swapped(4, 3, 3, false)], Asleep, false, false,
            [BARRIER, SEVEN, BARRIER, EIGHT, BARRIER], [BARRIER], [1, 2, 3, 4, 5])
    else if i == 7 then
      Queue(map[1 := Node(Some(2), BARRIER), 2 := Node(Some(3), SEVEN), 3 := Node(None, BARRIER),
                4 := Node(Some(5), EIGHT), 5 := Node(None, BARRIER)],
            5, 1, [Waiting(4), Swapped(4, 3, 3, false)], Asleep, false, false,
            [BARRIER, SEVEN, BARRIER, EIGHT, BARRIER], [BARRIER], [1, 2, 3, 4, 5])
    else if i == 8 then
      Queue(map[1 := Node(Some(2), BARRIER), 2 := Node(Some(3), SEVEN), 3 := Node(None, BARRIER),
                4 := Node(Some(5), EIGHT), 5 := Node(None, BARRIER)],
            5, 1, [Waiting(4), Swapped(4, 3, 3, false)], Ready, false, false,
            [BARRIER, SEVEN, BARRIER, EIGHT, BARRIER], [BARRIER], [1, 2, 3, 4, 5])
    else
      Queue(map[1 := Node(Some(2), BARRIER), 2 := Node(Some(3), SEVEN), 3 := Node(None, BARRIER),
                4 := Node(Some(5), EIGHT), 5 := Node(None, BARRIER)],
            5, 1, [Waiting(4), Swapped(4, 3, 3, false)], Popping(2), false, false,
            [BARRIER, SEVEN, BARRIER, EIGHT, BARRIER], [BARRIER], [1, 2, 3, 4, 5])
  }

  function Last(i: nat): Queue {
    if i == 0 then
      Queue(map[1 := Node(Some(2), BARRIER), 2 := Node(Some(3), SEVEN), 3 := Node(None, BARRIER),
                4 := Node(Some(5), EIGHT), 5 := Node(None, BARRIER)],
            5, 1, [Waiting(4), Swapped(4, 3, 3, false)], Popping(2), false, false,
            [BARRIER, SEVEN, BARRIER, EIGHT, BARRIER], [BARRIER], [1, 2, 3, 4, 5])
    else if i == 1 then
      Queue(map[1 := Node(Some(2), BARRIER), 2 := Node(Some(3), SEVEN), 3 := Node(None, BARRIER),
                4 := Node(Some(5), EIGHT), 5 := Node(None, BARRIER)],
            5, 2, [Waiting(4), Swapped(4, 3, 3, false)], Freeing(1), false, false,
            [BARRIER, SEVEN, BARRIER, EIGHT, BARRIER], [BARRIER, SEVEN], [2, 3, 4, 5])
    else if i == 2 then
      Queue(map[2 := Node(Some(3), SEVEN), 3 := Node(None, BARRIER), 4 := Node(Some(5), EIGHT),
                5 := Node(None, BARRIER)],
            5, 2, [Waiting(4), Swapped(4, 3, 3, false)], Ready, false, false,
            [BARRIER, SEVEN, BARRIER, EIGHT, BARRIER], [BARRIER, SEVEN], [2, 3, 4, 5])
    else if i == 3 then
      Queue(map[2 := Node(Some(3), SEVEN), 3 := Node(None, BARRIER), 4 := Node(Some(5), EIGHT),
                5 := Node(None, BARRIER)],
            5, 2, [Waiting(4), Swapped(4, 3, 3, false)], Popping(3), false, false,
            [BARRIER, SEVEN, BARRIER, EIGHT, BARRIER], [BARRIER, SEVEN], [2, 3, 4, 5])
    else if i == 4 then
      Queue(map[2 := Node(Some(3), SEVEN), 3 := Node(None, BARRIER), 4 := Node(Some(5), EIGHT),
                5 := Node(None, BARRIER)],
            5, 3, [Waiting(4), Swapped(4, 3, 3, false)], Freeing(2), true, false,
            [BARRIER, SEVEN, BARRIER, EIGHT, BARRIER], [BARRIER, SEVEN, BARRIER], [3, 4, 5])
    else if i == 5 then
      Queue(map[3 := Node(None, BARRIER), 4 := Node(Some(5), EIGHT), 5 := Node(None, BARRIER)],
            5, 3, [Waiting(4), Swapped(4, 3, 3, false)], Ready, true, false,
            [BARRIER, SEVEN, BARRIER, EIGHT, BARRIER], [BARRIER, SEVEN, BARRIER], [3, 4, 5])
    else if i == 6 then
      Queue(map[3 := Node(None, BARRIER), 4 := Node(Some(5), EIGHT), 5 := Node(None, BARRIER)],
            5, 3, [Waiting(4), Swapped(4, 3, 3, false)], Drained, true, false,
            [BARRIER, SEVEN, BARRIER, EIGHT, BARRIER], [BARRIER, SEVEN, BARRIER], [3, 4, 5])
    else if i == 7 then
      Queue(map[3 := Node(None, BARRIER), 4 := Node(Some(5), EIGHT), 5 := Node(None, BARRIER)],
            5, 3, [Waiting(4), Swapped(4, 3, 3, false)], Asleep, false, true,
            [BARRIER, SEVEN, BARRIER, EIGHT, BARRIER], [BARRIER, SEVEN, BARRIER], [3, 4, 5])
    else
      Queue(map[3 := Node(None, BARRIER), 4 := Node(Some(5), EIGHT), 5 := Node(None, BARRIER)],
            5, 3, [Idle, Swapped(4, 3, 3, false)], Asleep, false, true,
            [BARRIER, SEVEN, BARRIER, EIGHT, BARRIER], [BARRIER, SEVEN, BARRIER], [3, 4, 5])
  }

  lemma FirstSteps1()
    ensures Does(First(0), Clear(0), First(1))
    ensures Does(First(1), Make(0, 1, 0), First(2))
    ensures Does(First(2), Swap(0), First(3))
  {
  }

  lemma FirstSteps2()
    ensures Does(First(3), Link(0), First(4))
    ensures Does(First(4), Wake, First(5))
    ensures Does(First(5), Load, First(6))
  {
  }

  lemma FirstSteps3()
    ensures Does(First(6), Advance, First(7))
    ensures Does(First(7), Free, First(8))
    ensures Does(First(8), Load, First(9))
  {
  }

  lemma SecondSteps1()
    ensures Does(Second(0), Make(1, 2, 7), Second(1))
    ensures Does(Second(1), Swap(1), Second(2))
    ensures Does(Second(2), Link(1), Second(3))
  {
  }

  lemma SecondSteps2()
    ensures Does(Second(3), Clear(1), Second(4))
    ensures Does(Second(4), Make(1, 3, 0), Second(5))
    ensures Does(Second(5), Swap(1), Second(6))
  {
  }

  lemma SecondSteps3()
    ensures Does(Second(6), Link(1), Second(7))
    ensures Does(Second(7), Signal, Second(8))
    ensures Does(Second(8), Leave(1), Second(9))
  {
  }

  lemma ThirdSteps1()
    ensures Does(Third(0), Leave(0), Third(1))
    ensures Does(Third(1), Make(1, 4, 8), Third(2))
    ensures Does(Third(2), Swap(1), Third(3))
  {
  }

  lemma ThirdSteps2()
    ensures Does(Third(3), Clear(0), Third(4))
    ensures Does(Third(4), Make(0, 5, 0), Third(5))
    ensures Does(Third(5), Swap(0), Third(6))
  {
  }

  lemma ThirdSteps3()
    ensures Does(Third(6), Link(0), Third(7))
    ensures Does(Third(7), Wake, Third(8))
    ensures Does(Third(8), Load, Third(9))
  {
  }

  lemma LastSteps1()
    ensures Does(Last(0), Advance, Last(1))
    ensures Does(Last(1), Free, Last(2))
    ensures Does(Last(2), Load, Last(3))
  {
  }

  lemma LastSteps2()
    ensures Does(Last(3), Advance, Last(4))
    ensures Does(Last(4), Free, Last(5))
    ensures Does(Last(5), Load, Last(6))
  {
  }

  lemma LastSteps3()
    ensures Does(Last(6), Signal, Last(7))
    ensures Does(Last(7), Leave(0), Last(8))
  {
  }

  const OVERLAP: seq<Step> :=
    [Clear(0), Make(0, 1, 0), Swap(0), Link(0), Wake, Load, Advance, Free, Load, Make(1, 2, 7),
     Swap(1), Link(1), Clear(1), Make(1, 3, 0), Swap(1), Link(1), Signal, Leave(1)]

  const STALE: seq<Step> :=
    OVERLAP +
    [Leave(0), Make(1, 4, 8), Swap(1), Clear(0), Make(0, 5, 0), Swap(0), Link(0), Wake, Load,
     Advance, Free, Load, Advance, Free, Load, Signal, Leave(0)]

  function StateAt(i: nat): Queue {
    if i < 9 then First(i) else if i < 18 then Second(i - 9) else if i < 27 then Third(i - 18) else Last(i - 27)
  }

  lemma StateAtStep(i: nat)
    requires i < 18
    ensures Does(StateAt(i), OVERLAP[i], StateAt(i + 1))
  {
    if i < 3 { FirstSteps1(); }
    else if i < 6 { FirstSteps2(); }
    else if i < 9 { FirstSteps3(); }
    else if i < 12 { SecondSteps1(); }
    else if i < 15 { SecondSteps2(); }
    else { SecondSteps3(); }
  }

  lemma StateAtLater(i: nat)
    requires 18 <= i < 35
    ensures Does(StateAt(i), STALE[i], StateAt(i + 1))
  {
    assert STALE[i] == STALE[18..][i - 18];
    if i < 21 { ThirdSteps1(); }
    else if i < 24 { ThirdSteps2(); }
    else if i < 27 { ThirdSteps3(); }
    else if i < 30 { LastSteps1(); }
    else if i < 33 { LastSteps2(); }
    else { LastSteps3(); }
  }

  lemma RunThrough(at: nat -> Queue, steps: seq<Step>) returns (run: seq<Queue>)
    requires Init(at(0)) && forall i: nat :: i < |steps| ==> Does(at(i), steps[i], at(i + 1))
    ensures IsRun(run, steps) && forall i: nat :: i <= |steps| ==> run[i] == at(i)
  {
    run := seq(|steps| + 1, i requires 0 <= i => at(i));
    forall i | 0 <= i < |steps|
      ensures Enabled(run[i], steps[i]) && (Safe(run[i], steps[i]) ==> run[i + 1] == Next(run[i], steps[i]))
    {
      var j: nat := i;
      assert Does(at(j), steps[j], at(j + 1));
      assert run[j] == at(j) && run[j + 1] == at(j + 1);
    }
  }

  /** With two flushers the shared flag betrays one of them: the barrier of the first lets the
      second return although an event it pushed before its own barrier was never popped. */
  lemma OverlappingFlushes() returns (run: seq<Queue>)
    ensures IsRun(run, OVERLAP) && OVERLAP[14] == Swap(1) && OVERLAP[17] == Leave(1)
    ensures !(run[14].pushed <= run[17].popped)
  {
    forall i: nat | i < |OVERLAP| ensures Does(StateAt(i), OVERLAP[i], StateAt(i + 1)) { StateAtStep(i); }
    run := RunThrough(StateAt, OVERLAP);
    assert run[14] == StateAt(14) && run[17] == StateAt(17);
    assert run[14].pushed[1] == SEVEN;
  }

  /** Nobody but t is in a flush. */
  ghost predicate Alone(ps: seq<Producer>, t: nat) { forall u :: 0 <= u < |ps| && u != t ==> !InFlush(ps[u]) }

  lemma StaleSteps(i: nat)
    requires i < |STALE|
    ensures Does(StateAt(i), STALE[i], StateAt(i + 1))
  {
    if i < 18 { assert STALE[i] == OVERLAP[i]; StateAtStep(i); } else { StateAtLater(i); }
  }

  lemma LaterAlone(i: nat)
    requires 21 <= i <= 34
    ensures Alone(StateAt(i).producers, 0)
  {
  }

  /** A flush that overlaps no other, from its reset of the flag in step 21 to its return in step
      34, returns while an event exchanged before its barrier is still queued: the barrier that
      an earlier, overlapped flush left behind raises the flag. */
  lemma StaleBarrier() returns (run: seq<Queue>)
    ensures IsRun(run, STALE) && STALE[21] == Clear(0) && STALE[23] == Swap(0) && STALE[34] == Leave(0)
    ensures forall i: nat :: 21 <= i <= 34 ==> Alone(run[i].producers, 0)
    ensures !(run[23].pushed <= run[34].popped)
  {
    forall i: nat | i < |STALE| ensures Does(StateAt(i), STALE[i], StateAt(i + 1)) { StaleSteps(i); }
    run := RunThrough(StateAt, STALE);
    forall i: nat | 21 <= i <= 34 ensures Alone(run[i].producers, 0) { LaterAlone(i); assert run[i] == StateAt(i); }
    StaleLoses();
    StaleIs();
    assert run[23] == StateAt(23) && run[34] == StateAt(34);
  }

  lemma StaleLoses()
    ensures !(StateAt(23).pushed <= StateAt(34).popped)
  {
    assert StateAt(23).pushed[3] == EIGHT;
  }

  lemma StaleIs()
    ensures |STALE| == 35 && STALE[21] == Clear(0) && STALE[23] == Swap(0) && STALE[34] == Leave(0)
  {
  }
}
