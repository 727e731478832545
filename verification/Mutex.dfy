/**
 The channel-backed RW mutex: what a request, a release and a cancellation do to the lock
 and its queue, and what holds over every run of them.

 Handles are numbered in the order of their requests.  Close handlers run one at a time on the
 loop thread and requests run under the mutex's lock, so each is one step; the grants they
 send into the capacity-1 gates are steps of their own.
 */
module MutexSpec {
  import opened Common

  /** A lock handle.  `sends` are grants on their way to the gate, `grants` those it got. */
  datatype Handle = Handle(writer: bool, acquired: bool, handled: bool, sends: nat, grants: nat)

  datatype Mutex = Mutex(readers: nat, writerActive: bool, waitingWriters: int, queue: seq<nat>, handles: seq<Handle>)

  const Unlocked: Mutex := Mutex(0, false, 0, [], [])

  // -------------------------------------------------------------------- requests

  /** mutex_lock_request */
  function Request(m: Mutex, writer: bool): Mutex {
    var h := |m.handles|;
    var now := if writer then !m.writerActive && m.readers == 0 && m.queue == []
               else !m.writerActive && m.waitingWriters == 0 && m.queue == [];
    if now then
      m.(writerActive := m.writerActive || writer, readers := if writer then m.readers else m.readers + 1,
         handles := m.handles + [Handle(writer, true, false, 1, 0)])
    else
      m.(queue := m.queue + [h], waitingWriters := if writer then m.waitingWriters + 1 else m.waitingWriters,
         handles := m.handles + [Handle(writer, false, false, 0, 0)])
  }

  // --------------------------------------------------------------------- grants

  predicate Below(q: seq<nat>, n: nat) { forall i :: 0 <= i < |q| ==> q[i] < n }

  predicate InRange(m: Mutex) { Below(m.queue, |m.handles|) }

  /** Move the head of the queue to the holders. */
  function GrantHead(m: Mutex): Mutex
    requires m.queue != [] && m.queue[0] < |m.handles|
  {
    var h := m.queue[0]; var x := m.handles[h];
    m.(queue := m.queue[1..], handles := m.handles[h := x.(acquired := true, sends := x.sends + 1)],
       writerActive := m.writerActive || x.writer,
       readers := if x.writer then m.readers else m.readers + 1,
       waitingWriters := if x.writer then m.waitingWriters - 1 else m.waitingWriters)
  }

  /** The readers at the head of the queue, up to the first writer. */
  function GrantReaders(m: Mutex): Mutex
    requires InRange(m)
    decreases |m.queue|
  {
    if m.queue == [] || m.handles[m.queue[0]].writer then m else GrantReaders(GrantHead(m))
  }

  /** The grant decision of mutex_release: a writer alone, or a batch of readers. */
  function Grant(m: Mutex): Mutex
    requires InRange(m)
  {
    if m.writerActive || m.readers != 0 || m.queue == [] then m
    else if m.handles[m.queue[0]].writer then GrantHead(m)
    else GrantReaders(m)
  }

  /** mutex_release */
  function Release(m: Mutex, writer: bool): Mutex
    requires InRange(m)
  {
    Grant(if writer then m.(writerActive := false) else if m.readers > 0 then m.(readers := m.readers - 1) else m)
  }

  // --------------------------------------------------------------- cancellation

  /** Everything but the first occurrence of h. */
  function Without(q: seq<nat>, h: nat): seq<nat> {
    if q == [] then [] else if q[0] == h then q[1..] else [q[0]] + Without(q[1..], h)
  }

  /** mutex_cancel_waiter */
  function Cancel(m: Mutex, h: nat): Mutex
    requires h < |m.handles|
  {
    if h !in m.queue then m
    else m.(queue := Without(m.queue, h),
            waitingWriters := if m.handles[h].writer && m.waitingWriters > 0 then m.waitingWriters - 1
                else m.waitingWriters)
  }

  /** mutex_on_lock_channel_closed */
  function Close(m: Mutex, h: nat): Mutex
    requires h < |m.handles| && InRange(m)
  {
    if m.handles[h].handled then m
    else
      var m1 := m.(handles := m.handles[h := m.handles[h].(handled := true)]);
      if m.handles[h].acquired then Release(m1, m.handles[h].writer) else Cancel(m1, h)
  }

  /** A grant has reached the gate, unless the gate was closed meanwhile. */
  function Delivered(x: Handle): Handle
    requires x.sends > 0
  {
    x.(sends := x.sends - 1, grants := if x.handled then x.grants else x.grants + 1)
  }

  /** mutex_send_grant: the put into the gate. */
  function Send(m: Mutex, h: nat): Mutex
    requires h < |m.handles| && m.handles[h].sends > 0
  {
    m.(handles := m.handles[h := Delivered(m.handles[h])])
  }

  // ----------------------------------------------------------------------- runs

  datatype Op = Lock(writer: bool) | Unlock(h: nat) | Deliver(h: nat)

  predicate Enabled(m: Mutex, op: Op) {
    match op {
      case Lock(_) => true
      case Unlock(h) => h < |m.handles| && InRange(m)
      case Deliver(h) => h < |m.handles| && m.handles[h].sends > 0
    }
  }

  function Next(m: Mutex, op: Op): Mutex
    requires Enabled(m, op)
  {
    match op {
      case Lock(w) => Request(m, w)
      case Unlock(h) => Close(m, h)
      case Deliver(h) => Send(m, h)
    }
  }

  ghost predicate IsRun(run: seq<Mutex>, ops: seq<Op>) {
    && |run| == |ops| + 1 && run[0] == Unlocked
    && forall i :: 0 <= i < |ops| ==> Enabled(run[i], ops[i]) && run[i + 1] == Next(run[i], ops[i])
  }

  // ------------------------------------------------------------------- counting

  /** Granted and not closed. */
  predicate Active(x: Handle, writer: bool) { x.acquired && !x.handled && x.writer == writer }

  function Holders(hs: seq<Handle>, writer: bool): nat {
    if hs == [] then 0
    else Holders(hs[..|hs| - 1], writer) + (if Active(hs[|hs| - 1], writer) then 1 else 0)
  }

  function Writers(hs: seq<Handle>, q: seq<nat>): nat {
    if q == [] then 0
    else (if q[0] < |hs| && hs[q[0]].writer then 1 else 0) + Writers(hs, q[1..])
  }

  // ------------------------------------------------------------------ invariant

  ghost predicate HandleOk(hs: seq<Handle>, q: seq<nat>, h: nat)
    requires h < |hs|
  {
    && (h in q <==> !hs[h].acquired && !hs[h].handled)
    && hs[h].sends + hs[h].grants <= (if hs[h].acquired then 1 else 0)
  }

  ghost predicate HandlesOk(hs: seq<Handle>, q: seq<nat>) {
    forall h :: 0 <= h < |hs| ==> HandleOk(hs, q, h)
  }

  /** Every handle granted so far asked before every handle still queued. */
  ghost predicate InOrder(hs: seq<Handle>, q: seq<nat>) {
    forall a, i :: 0 <= a < |hs| && 0 <= i < |q| && hs[a].acquired ==> a < q[i]
  }

  /** The counters count what they are meant to count. */
  ghost predicate Counted(m: Mutex) {
    && m.readers == Holders(m.handles, false)
    && (if m.writerActive then 1 else 0) == Holders(m.handles, true)
    && m.waitingWriters == Writers(m.handles, m.queue)
  }

  ghost predicate Core(m: Mutex) {
    && InRange(m) && Ascending(m.queue) && HandlesOk(m.handles, m.queue)
    && InOrder(m.handles, m.queue) && Counted(m)
  }

  predicate Held(m: Mutex) { m.writerActive || m.readers > 0 }

  ghost predicate Valid(m: Mutex) {
    && Core(m)
    && (m.writerActive ==> m.readers == 0)
    && (m.queue != [] ==> Held(m))
  }

  // ------------------------------------------------------------ counting lemmas

  function One(b: bool): nat { if b then 1 else 0 }

  lemma HoldersAdd(hs: seq<Handle>, x: Handle, w: bool)
    ensures Holders(hs + [x], w) == Holders(hs, w) + One(Active(x, w))
  {
    assert (hs + [x])[..|hs|] == hs;
  }

  lemma {:induction false} HoldersSet(hs: seq<Handle>, h: nat, x: Handle, w: bool)
    requires h < |hs|
    ensures Holders(hs[h := x], w) == Holders(hs, w) - One(Active(hs[h], w)) + One(Active(x, w))
  {
    var n := |hs| - 1;
    if h == n {
      assert hs[h := x][..n] == hs[..n];
    } else {
      assert hs[h := x][..n] == hs[..n][h := x];
      HoldersSet(hs[..n], h, x, w);
    }
  }

  lemma {:induction false} HoldersHas(hs: seq<Handle>, h: nat, w: bool)
    requires h < |hs| && Active(hs[h], w)
    ensures Holders(hs, w) >= 1
  {
    if h < |hs| - 1 { HoldersHas(hs[..|hs| - 1], h, w); }
  }

  /** A positive count has someone behind it. */
  lemma {:induction false} HoldersFind(hs: seq<Handle>, w: bool) returns (h: nat)
    requires Holders(hs, w) > 0
    ensures h < |hs| && Active(hs[h], w)
  {
    if Active(hs[|hs| - 1], w) { h := |hs| - 1; } else { h := HoldersFind(hs[..|hs| - 1], w); }
  }

  ghost predicate SameKinds(hs: seq<Handle>, ks: seq<Handle>, q: seq<nat>) {
    forall i :: 0 <= i < |q| ==> (q[i] < |hs| && hs[q[i]].writer) == (q[i] < |ks| && ks[q[i]].writer)
  }

  lemma {:induction false} WritersSame(hs: seq<Handle>, ks: seq<Handle>, q: seq<nat>)
    requires SameKinds(hs, ks, q)
    ensures Writers(hs, q) == Writers(ks, q)
  {
    if q != [] { assert q[0] == q[0]; WritersSame(hs, ks, q[1..]); }
  }

  lemma {:induction false} WritersCat(hs: seq<Handle>, p: seq<nat>, q: seq<nat>)
    ensures Writers(hs, p + q) == Writers(hs, p) + Writers(hs, q)
  {
    if p == [] { assert p + q == q; } else { assert (p + q)[1..] == p[1..] + q; WritersCat(hs, p[1..], q); }
  }

  lemma WritersOne(hs: seq<Handle>, h: nat)
    ensures Writers(hs, [h]) == One(h < |hs| && hs[h].writer)
  {
    assert Writers(hs, [h][1..]) == 0;
  }

  lemma {:induction false} WithoutFirst(q: seq<nat>, h: nat, i: nat)
    requires i < |q| && q[i] == h && h !in q[..i]
    ensures Without(q, h) == q[..i] + q[i + 1..]
  {
    if i > 0 {
      assert q[0] == q[..i][0];
      assert q[1..][..i - 1] == q[..i][1..];
      WithoutFirst(q[1..], h, i - 1);
      assert [q[0]] + (q[1..i] + q[i + 1..]) == q[..i] + q[i + 1..];
    }
  }

  lemma WithoutAt(q: seq<nat>, h: nat, i: nat)
    requires Ascending(q) && i < |q| && q[i] == h
    ensures Without(q, h) == q[..i] + q[i + 1..]
  {
    WithoutFirst(q, h, i);
  }

  // ------------------------------------------------------------- one step at a time

  predicate GrantedNow(m: Mutex, w: bool) {
    m.queue == [] && !m.writerActive && (if w then m.readers == 0 else m.waitingWriters == 0)
  }

  lemma HandlesAdd(hs: seq<Handle>, q: seq<nat>, x: Handle)
    requires HandlesOk(hs, q) && !x.handled && (x.acquired ==> |hs| !in q) && x.sends + x.grants <= One(x.acquired)
    ensures HandlesOk(hs + [x], if x.acquired then q else q + [|hs|])
  {
    var ks := hs + [x]; var p := if x.acquired then q else q + [|hs|];
    forall k | 0 <= k < |ks| ensures HandleOk(ks, p, k) {
      if k < |hs| { assert HandleOk(hs, q, k); }
    }
  }

  lemma OrderAdd(hs: seq<Handle>, q: seq<nat>, x: Handle)
    requires Ascending(q) && InOrder(hs, q) && Below(q, |hs|) && !x.acquired
    ensures Ascending(q + [|hs|]) && InOrder(hs + [x], q + [|hs|])
    ensures Below(q + [|hs|], |hs| + 1)
  {
  }

  lemma OrderDrop(hs: seq<Handle>, q: seq<nat>, i: nat)
    requires Ascending(q) && InOrder(hs, q) && i < |q| && Below(q, |hs|)
    ensures Ascending(q[..i] + q[i + 1..])
    ensures InOrder(hs[q[i] := hs[q[i]].(handled := true)], q[..i] + q[i + 1..])
    ensures Below(q[..i] + q[i + 1..], |hs|)
  {
    var p := q[..i] + q[i + 1..];
    assert forall j :: 0 <= j < |p| ==> p[j] == q[if j < i then j else j + 1];
  }

  lemma RequestGranted(m: Mutex, w: bool)
    requires Valid(m) && GrantedNow(m, w)
    ensures Valid(Request(m, w))
  {
    var x := Handle(w, true, false, 1, 0);
    HoldersAdd(m.handles, x, false); HoldersAdd(m.handles, x, true);
    HandlesAdd(m.handles, m.queue, x);
  }

  lemma RequestQueued(m: Mutex, w: bool)
    requires Valid(m) && !GrantedNow(m, w)
    ensures Valid(Request(m, w))
  {
    var h := |m.handles|; var x := Handle(w, false, false, 0, 0); var hs := m.handles + [x];
    HoldersAdd(m.handles, x, false); HoldersAdd(m.handles, x, true);
    HandlesAdd(m.handles, m.queue, x);
    OrderAdd(m.handles, m.queue, x);
    assert Writers(m.handles, []) == 0;
    WritersSame(m.handles, hs, m.queue);
    WritersCat(hs, m.queue, [h]); WritersOne(hs, h);
  }

  lemma RequestOk(m: Mutex, w: bool)
    requires Valid(m)
    ensures Valid(Request(m, w))
  {
    if GrantedNow(m, w) { RequestGranted(m, w); } else { RequestQueued(m, w); }
  }

  lemma GrantHeadOk(m: Mutex)
    requires Core(m) && m.queue != [] && (m.handles[m.queue[0]].writer ==> !m.writerActive)
    ensures Core(GrantHead(m))
  {
    var n := GrantHead(m); var h := m.queue[0]; var x := n.handles[h];
    assert HandleOk(m.handles, m.queue, h);
    HoldersSet(m.handles, h, x, false); HoldersSet(m.handles, h, x, true);
    WritersSame(m.handles, n.handles, n.queue);
    assert n.queue == m.queue[1..];
    forall k | 0 <= k < |n.handles| ensures HandleOk(n.handles, n.queue, k) {
      assert HandleOk(m.handles, m.queue, k);
      if k == h { assert h !in n.queue; }
      else { assert k in m.queue <==> k in n.queue; }
    }
    forall a, i | 0 <= a < |n.handles| && 0 <= i < |n.queue| && n.handles[a].acquired ensures a < n.queue[i] {
      assert n.queue[i] == m.queue[i + 1] > h;
    }
  }

  lemma {:induction false} GrantReadersOk(m: Mutex)
    requires Core(m) && !m.writerActive
    ensures Core(GrantReaders(m)) && !GrantReaders(m).writerActive
    ensures GrantReaders(m).readers >= m.readers
    ensures m.queue != [] && !m.handles[m.queue[0]].writer ==> GrantReaders(m).readers > m.readers
    decreases |m.queue|
  {
    if m.queue != [] && !m.handles[m.queue[0]].writer {
      GrantHeadOk(m);
      GrantReadersOk(GrantHead(m));
    }
  }

  lemma GrantOk(m: Mutex)
    requires Core(m) && (m.writerActive ==> m.readers == 0)
    ensures Valid(Grant(m))
  {
    if !Held(m) && m.queue != [] {
      if m.handles[m.queue[0]].writer { GrantHeadOk(m); } else { GrantReadersOk(m); }
    }
  }

  /** What a release has done before it looks at the queue. */
  function Dropped(m: Mutex, h: nat): Mutex
    requires h < |m.handles|
  {
    var x := m.handles[h]; var m1 := m.(handles := m.handles[h := x.(handled := true)]);
    if x.writer then m1.(writerActive := false) else if m1.readers > 0 then m1.(readers := m1.readers - 1) else m1
  }

  lemma DroppedOk(m: Mutex, h: nat)
    requires Valid(m) && h < |m.handles| && m.handles[h].acquired && !m.handles[h].handled
    ensures Core(Dropped(m, h)) && Close(m, h) == Grant(Dropped(m, h))
    ensures Dropped(m, h).writerActive ==> Dropped(m, h).readers == 0
    ensures Dropped(m, h).readers + One(Dropped(m, h).writerActive) == m.readers + One(m.writerActive) - 1
  {
    var n := Dropped(m, h); var y := n.handles[h];
    HoldersHas(m.handles, h, m.handles[h].writer);
    HoldersSet(m.handles, h, y, false); HoldersSet(m.handles, h, y, true);
    WritersSame(m.handles, n.handles, n.queue);
    forall k | 0 <= k < |n.handles| ensures HandleOk(n.handles, n.queue, k) {
      assert HandleOk(m.handles, m.queue, k);
    }
  }

  lemma HandlesCancel(hs: seq<Handle>, q: seq<nat>, i: nat)
    requires HandlesOk(hs, q) && Ascending(q) && i < |q| && q[i] < |hs|
    ensures HandlesOk(hs[q[i] := hs[q[i]].(handled := true)], q[..i] + q[i + 1..])
  {
    var h := q[i]; var ks := hs[h := hs[h].(handled := true)]; var p := q[..i] + q[i + 1..];
    forall k | 0 <= k < |ks| ensures HandleOk(ks, p, k) {
      assert HandleOk(hs, q, k);
      if k == h { assert h !in p; } else { WithoutKeeps(q, i, k); }
    }
  }

  lemma CountsCancel(hs: seq<Handle>, q: seq<nat>, i: nat)
    requires i < |q| && q[i] < |hs| && !hs[q[i]].acquired
    ensures forall w :: Holders(hs[q[i] := hs[q[i]].(handled := true)], w) == Holders(hs, w)
    ensures Writers(hs[q[i] := hs[q[i]].(handled := true)], q[..i] + q[i + 1..])
            == Writers(hs, q) - One(hs[q[i]].writer)
  {
    var y := hs[q[i]].(handled := true); var ks := hs[q[i] := y];
    HoldersSet(hs, q[i], y, false); HoldersSet(hs, q[i], y, true);
    WritersSame(hs, ks, q[..i] + q[i + 1..]);
    WritersSplit(hs, q, i);
    WritersCat(hs, q[..i], q[i + 1..]);
  }

  /** A cancellation takes exactly its own handle out of the queue. */
  lemma CancelAt(m: Mutex, h: nat) returns (i: nat)
    requires Valid(m) && h < |m.handles| && !m.handles[h].acquired && !m.handles[h].handled
    ensures i < |m.queue| && m.queue[i] == h
    ensures Close(m, h) == m.(queue := m.queue[..i] + m.queue[i + 1..],
                              handles := m.handles[h := m.handles[h].(handled := true)],
                              waitingWriters := m.waitingWriters - One(m.handles[h].writer))
  {
    assert HandleOk(m.handles, m.queue, h);
    i :| 0 <= i < |m.queue| && m.queue[i] == h;
    WithoutAt(m.queue, h, i);
    WritersSplit(m.handles, m.queue, i);
  }

  lemma CancelOk(m: Mutex, h: nat)
    requires Valid(m) && h < |m.handles| && !m.handles[h].acquired && !m.handles[h].handled
    ensures Valid(Close(m, h))
  {
    var i := CancelAt(m, h);
    HandlesCancel(m.handles, m.queue, i);
    CountsCancel(m.handles, m.queue, i);
    OrderDrop(m.handles, m.queue, i);
  }

  lemma WritersSplit(hs: seq<Handle>, q: seq<nat>, i: nat)
    requires i < |q|
    ensures Writers(hs, q) == Writers(hs, q[..i]) + One(q[i] < |hs| && hs[q[i]].writer) + Writers(hs, q[i + 1..])
  {
    assert q == q[..i] + ([q[i]] + q[i + 1..]);
    WritersCat(hs, q[..i], [q[i]] + q[i + 1..]);
    WritersCat(hs, [q[i]], q[i + 1..]);
    WritersOne(hs, q[i]);
  }

  lemma WithoutKeeps(q: seq<nat>, i: nat, k: nat)
    requires i < |q| && k != q[i]
    ensures k in q <==> k in q[..i] + q[i + 1..]
  {
    if k in q {
      var j :| 0 <= j < |q| && q[j] == k;
      if j < i { assert q[..i][j] == k; } else { assert q[i + 1..][j - i - 1] == k; }
    }
  }

  lemma CloseOk(m: Mutex, h: nat)
    requires Valid(m) && h < |m.handles|
    ensures Valid(Close(m, h))
  {
    if !m.handles[h].handled {
      if m.handles[h].acquired { DroppedOk(m, h); GrantOk(Dropped(m, h)); } else { CancelOk(m, h); }
    }
  }

  lemma SendOk(m: Mutex, h: nat)
    requires Valid(m) && h < |m.handles| && m.handles[h].sends > 0
    ensures Valid(Send(m, h))
  {
    var n := Send(m, h); var y := n.handles[h];
    HoldersSet(m.handles, h, y, false); HoldersSet(m.handles, h, y, true);
    WritersSame(m.handles, n.handles, n.queue);
    forall k | 0 <= k < |n.handles| ensures HandleOk(n.handles, n.queue, k) {
      assert HandleOk(m.handles, m.queue, k);
    }
  }

  lemma ValidNext(m: Mutex, op: Op)
    requires Valid(m) && Enabled(m, op)
    ensures Valid(Next(m, op))
  {
    match op {
      case Lock(w) => RequestOk(m, w);
      case Unlock(h) => CloseOk(m, h);
      case Deliver(h) => SendOk(m, h);
    }
  }

  lemma {:induction false} ValidRun(run: seq<Mutex>, ops: seq<Op>, n: nat)
    requires IsRun(run, ops) && n < |run|
    ensures Valid(run[n])
  {
    if n > 0 { ValidRun(run, ops, n - 1); ValidNext(run[n - 1], ops[n - 1]); }
  }

  // ---------------------------------------------------------------------- safety

  lemma {:induction false} HoldersTwo(hs: seq<Handle>, a: nat, b: nat, w: bool)
    requires a < b < |hs| && Active(hs[a], w) && Active(hs[b], w)
    ensures Holders(hs, w) >= 2
  {
    if b == |hs| - 1 { HoldersHas(hs[..b], a, w); } else { HoldersTwo(hs[..|hs| - 1], a, b, w); }
  }

  /** Whoever shares the lock is a reader. */
  lemma MutualExclusion(run: seq<Mutex>, ops: seq<Op>, n: nat, a: nat, b: nat)
    requires IsRun(run, ops) && n < |run| && a < b < |run[n].handles|
    requires Active(run[n].handles[a], run[n].handles[a].writer)
    requires Active(run[n].handles[b], run[n].handles[b].writer)
    ensures !run[n].handles[a].writer && !run[n].handles[b].writer
  {
    ValidRun(run, ops, n);
    var hs := run[n].handles;
    HoldersHas(hs, a, hs[a].writer);
    HoldersHas(hs, b, hs[b].writer);
    if hs[a].writer && hs[b].writer { HoldersTwo(hs, a, b, true); }
  }

  /** The counters count the granted handles that were not closed, the queue holds exactly
      those neither granted nor closed, and nobody waits for a free lock. */
  lemma CountersExact(run: seq<Mutex>, ops: seq<Op>, n: nat)
    requires IsRun(run, ops) && n < |run|
    ensures run[n].readers == Holders(run[n].handles, false)
    ensures One(run[n].writerActive) == Holders(run[n].handles, true)
    ensures run[n].waitingWriters == Writers(run[n].handles, run[n].queue)
    ensures forall h :: 0 <= h < |run[n].handles| ==>
              (h in run[n].queue <==> !run[n].handles[h].acquired && !run[n].handles[h].handled)
    ensures run[n].queue != [] ==> exists h, w :: 0 <= h < |run[n].handles| && Active(run[n].handles[h], w)
  {
    ValidRun(run, ops, n);
    var m := run[n];
    forall h | 0 <= h < |m.handles|
      ensures h in m.queue <==> !m.handles[h].acquired && !m.handles[h].handled
    {
      assert HandleOk(m.handles, m.queue, h);
    }
    if m.queue != [] {
      var h := HoldersFind(m.handles, m.writerActive);
    }
  }

  // ----------------------------------------------------------------------- order

  /** First come, first served: when a handle holds or has held the lock, everyone who asked
      before it was granted too or has given up. */
  lemma FirstComeFirstServed(run: seq<Mutex>, ops: seq<Op>, n: nat, a: nat, h: nat)
    requires IsRun(run, ops) && n < |run| && a < h < |run[n].handles| && run[n].handles[h].acquired
    ensures run[n].handles[a].acquired || run[n].handles[a].handled
  {
    ValidRun(run, ops, n);
    assert HandleOk(run[n].handles, run[n].queue, a);
  }

  /** A gate gets at most one grant, none unless its handle was granted, and the put into the
      capacity-1 gate always finds it empty. */
  lemma OneGrant(run: seq<Mutex>, ops: seq<Op>, n: nat, h: nat)
    requires IsRun(run, ops) && n < |run| && h < |run[n].handles|
    ensures run[n].handles[h].grants <= 1 && (run[n].handles[h].grants == 1 ==> run[n].handles[h].acquired)
    ensures Enabled(run[n], Deliver(h)) ==> run[n].handles[h].grants == 0
  {
    ValidRun(run, ops, n);
    assert HandleOk(run[n].handles, run[n].queue, h);
  }

  // -------------------------------------------------------------------- closing

  function Load(m: Mutex): nat { m.readers + One(m.writerActive) }

  lemma {:induction false} GrantReadersKeeps(m: Mutex, k: nat)
    requires InRange(m) && k < |m.handles|
    ensures |GrantReaders(m).handles| == |m.handles|
    ensures GrantReaders(m).handles[k].handled == m.handles[k].handled
    ensures GrantReaders(m).handles[k].writer == m.handles[k].writer
    ensures m.handles[k].acquired ==> GrantReaders(m).handles[k].acquired
    decreases |m.queue|
  {
    if m.queue != [] && !m.handles[m.queue[0]].writer { GrantReadersKeeps(GrantHead(m), k); }
  }

  lemma GrantKeeps(m: Mutex, k: nat)
    requires InRange(m) && k < |m.handles|
    ensures |Grant(m).handles| == |m.handles|
    ensures Grant(m).handles[k].handled == m.handles[k].handled
    ensures Grant(m).handles[k].writer == m.handles[k].writer
    ensures m.handles[k].acquired ==> Grant(m).handles[k].acquired
  {
    GrantReadersKeeps(m, k);
  }

  ghost predicate OneWay(x: Handle, y: Handle) {
    x.writer == y.writer && (x.acquired ==> y.acquired) && (x.handled ==> y.handled)
  }

  lemma OneWayNext(m: Mutex, op: Op, k: nat)
    requires Valid(m) && Enabled(m, op) && k < |m.handles|
    ensures k < |Next(m, op).handles| && OneWay(m.handles[k], Next(m, op).handles[k])
    ensures Next(m, op).handles[k].handled ==> m.handles[k].handled || op == Unlock(k)
  {
    if op.Unlock? && m.handles[op.h].acquired && !m.handles[op.h].handled {
      DroppedOk(m, op.h);
      GrantKeeps(Dropped(m, op.h), k);
    }
  }

  /** The first close of a granted handle releases, the first close of a waiting handle
      cancels and touches nobody else, every other close does nothing. */
  lemma CloseOnce(m: Mutex, h: nat)
    requires Valid(m) && h < |m.handles|
    ensures m.handles[h].handled ==> Close(m, h) == m
    ensures |Close(m, h).handles| == |m.handles| && Close(m, h).handles[h].handled
    ensures h !in Close(m, h).queue
    ensures h in m.queue ==> Load(Close(m, h)) == Load(m) && |Close(m, h).queue| == |m.queue| - 1
    ensures h in m.queue ==> forall k :: 0 <= k < |m.handles| && k != h ==> Close(m, h).handles[k] == m.handles[k]
    ensures !m.handles[h].handled && h !in m.queue ==>
              Load(Close(m, h)) + |Close(m, h).queue| == Load(m) + |m.queue| - 1
  {
    assert HandleOk(m.handles, m.queue, h);
    CloseOk(m, h);
    OneWayNext(m, Unlock(h), h);
    if h in m.queue { CloseWaiting(m, h); } else if !m.handles[h].handled { CloseGranted(m, h); }
    assert HandleOk(Close(m, h).handles, Close(m, h).queue, h);
  }

  lemma CloseWaiting(m: Mutex, h: nat)
    requires Valid(m) && h < |m.handles| && h in m.queue
    ensures Load(Close(m, h)) == Load(m) && |Close(m, h).queue| == |m.queue| - 1
    ensures |Close(m, h).handles| == |m.handles| && Close(m, h).handles[h].handled
    ensures forall k :: 0 <= k < |m.handles| && k != h ==> Close(m, h).handles[k] == m.handles[k]
  {
    assert HandleOk(m.handles, m.queue, h);
    var i := CancelAt(m, h);
  }

  lemma CloseGranted(m: Mutex, h: nat)
    requires Valid(m) && h < |m.handles| && h !in m.queue && !m.handles[h].handled
    ensures Load(Close(m, h)) + |Close(m, h).queue| == Load(m) + |m.queue| - 1
    ensures |Close(m, h).handles| == |m.handles| && Close(m, h).handles[h].handled
  {
    assert HandleOk(m.handles, m.queue, h);
    DroppedOk(m, h);
    GrantLoad(Dropped(m, h));
    GrantKeeps(Dropped(m, h), h);
  }

  lemma {:induction false} GrantReadersLoad(m: Mutex)
    requires InRange(m)
    ensures Load(GrantReaders(m)) + |GrantReaders(m).queue| == Load(m) + |m.queue|
    decreases |m.queue|
  {
    if m.queue != [] && !m.handles[m.queue[0]].writer { GrantReadersLoad(GrantHead(m)); }
  }

  lemma GrantLoad(m: Mutex)
    requires InRange(m)
    ensures Load(Grant(m)) + |Grant(m).queue| == Load(m) + |m.queue|
  {
    GrantReadersLoad(m);
  }

  // -------------------------------------------------------------------- progress

  /** The number of waiters in front of w. */
  function Ahead(q: seq<nat>, w: nat): nat
    requires w in q
  {
    if q[0] == w then 0 else 1 + Ahead(q[1..], w)
  }

  /** How many releases stand between a waiter and the lock, at most. */
  function Rank(m: Mutex, w: nat): nat
    requires w in m.queue
  {
    Load(m) + Ahead(m.queue, w)
  }

  lemma {:induction false} AheadCat(p: seq<nat>, q: seq<nat>, w: nat)
    requires w in p
    ensures Ahead(p + q, w) == Ahead(p, w)
  {
    if p[0] != w { assert (p + q)[1..] == p[1..] + q; AheadCat(p[1..], q, w); }
  }

  lemma {:induction false} AheadDrop(q: seq<nat>, i: nat, w: nat)
    requires i < |q| && q[i] != w && w in q[..i] + q[i + 1..]
    ensures w in q && Ahead(q[..i] + q[i + 1..], w) <= Ahead(q, w)
  {
    var p := q[..i] + q[i + 1..];
    if i == 0 {
      assert p == q[1..];
    } else if q[0] != w {
      assert p[1..] == q[1..][..i - 1] + q[1..][i..];
      AheadDrop(q[1..], i - 1, w);
    }
  }

  lemma HeadRank(m: Mutex, w: nat)
    requires InRange(m) && Ascending(m.queue) && m.queue != [] && !m.writerActive && w in m.queue[1..]
    ensures w in m.queue && Rank(GrantHead(m), w) == Rank(m, w)
  {
    var j :| 0 <= j < |m.queue[1..]| && m.queue[1..][j] == w;
    assert m.queue[0] < m.queue[j + 1] == w;
  }

  lemma {:induction false} GrantReadersRank(m: Mutex, w: nat)
    requires InRange(m) && Ascending(m.queue) && !m.writerActive && w in GrantReaders(m).queue
    ensures w in m.queue && Rank(GrantReaders(m), w) <= Rank(m, w)
    decreases |m.queue|
  {
    if m.queue != [] && !m.handles[m.queue[0]].writer {
      GrantReadersRank(GrantHead(m), w);
      HeadRank(m, w);
    }
  }

  /** One release, one step closer; nothing else pushes a waiter back. */
  lemma RankNext(m: Mutex, op: Op, w: nat)
    requires Valid(m) && Enabled(m, op) && w in m.queue && w in Next(m, op).queue
    ensures Rank(Next(m, op), w) + One(IsRelease(m, op)) <= Rank(m, w)
  {
    match op {
      case Lock(x) => AheadCat(m.queue, [|m.handles|], w);
      case Deliver(_) =>
      case Unlock(h) =>
        if IsRelease(m, op) {
          DroppedOk(m, h);
          GrantRank(Dropped(m, h), w);
        } else if !m.handles[h].handled {
          var i := CancelAt(m, h);
          CancelOk(m, h);
          assert HandleOk(Close(m, h).handles, Close(m, h).queue, h);
          AheadDrop(m.queue, i, w);
        }
    }
  }

  lemma GrantRank(m: Mutex, w: nat)
    requires InRange(m) && Ascending(m.queue) && (m.writerActive ==> m.readers == 0) && w in Grant(m).queue
    ensures w in m.queue && Rank(Grant(m), w) <= Rank(m, w)
  {
    if !Held(m) {
      if m.handles[m.queue[0]].writer { HeadRank(m, w); } else { GrantReadersRank(m, w); }
    }
  }

  /** Closing a handle that holds the lock. */
  predicate IsRelease(m: Mutex, op: Op) {
    op.Unlock? && op.h < |m.handles| && m.handles[op.h].acquired && !m.handles[op.h].handled
  }

  function Releases(run: seq<Mutex>, ops: seq<Op>, from: nat, to: nat): nat
    requires from <= to <= |ops| < |run|
  {
    if from == to then 0 else Releases(run, ops, from, to - 1) + One(IsRelease(run[to - 1], ops[to - 1]))
  }

  lemma {:induction false} RankRun(run: seq<Mutex>, ops: seq<Op>, i: nat, n: nat, w: nat)
    requires IsRun(run, ops) && i <= n < |run| && w in run[i].queue
    requires forall j :: i <= j < n ==> ops[j] != Unlock(w)
    ensures w < |run[n].handles| && !run[n].handles[w].handled
    ensures w in run[n].queue ==> Rank(run[n], w) + Releases(run, ops, i, n) <= Rank(run[i], w)
    ensures w !in run[n].queue ==> run[n].handles[w].acquired
  {
    ValidRun(run, ops, n);
    if i == n {
      assert HandleOk(run[n].handles, run[n].queue, w);
    } else {
      RankRun(run, ops, i, n - 1, w);
      ValidRun(run, ops, n - 1);
      OneWayNext(run[n - 1], ops[n - 1], w);
      assert HandleOk(run[n].handles, run[n].queue, w);
      assert HandleOk(run[n - 1].handles, run[n - 1].queue, w);
      if w in run[n].queue { RankNext(run[n - 1], ops[n - 1], w); }
    }
  }

  /** A waiter that is not cancelled holds the lock after at most as many releases as there
      are holders and waiters in front of it, whatever else happens in between; and as long
      as it waits there is a holder to release. */
  lemma EveryWaiterGranted(run: seq<Mutex>, ops: seq<Op>, i: nat, n: nat, w: nat)
    requires IsRun(run, ops) && i <= n < |run| && w in run[i].queue
    requires forall j :: i <= j < n ==> ops[j] != Unlock(w)
    ensures w < |run[n].handles|
    ensures Releases(run, ops, i, n) >= Rank(run[i], w) ==> run[n].handles[w].acquired
    ensures !run[n].handles[w].acquired ==>
              exists h: nat :: h < |run[n].handles| && IsRelease(run[n], Unlock(h)) && Enabled(run[n], Unlock(h))
  {
    RankRun(run, ops, i, n, w);
    ValidRun(run, ops, n);
    if w in run[n].queue {
      var h := HoldersFind(run[n].handles, run[n].writerActive);
      assert IsRelease(run[n], Unlock(h));
    }
  }
}
