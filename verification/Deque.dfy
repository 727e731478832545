/** The growable double-ended array: what a grow does to its shape, and what growing costs. */
module DequeShape {
  const INIT_CAP := 8

  /** Where the elements lie in the buffer. */
  datatype Shape = Shape(cap: nat, head: nat, len: nat)

  predicate Fits(s: Shape) { s.head + s.len <= s.cap }

  function Made(initialCap: nat): Shape {
    var cap := if initialCap < INIT_CAP then INIT_CAP else initialCap;
    Shape(cap, cap / 4, 0)
  }

  /** array_grow */
  function Grown(s: Shape, forHead: bool): Shape
    requires Fits(s)
  {
    var cap := if s.cap < INIT_CAP then INIT_CAP else s.cap * 2;
    var slack := cap - s.len;
    Shape(cap, if forHead then slack * 3 / 4 else slack / 4, s.len)
  }

  predicate GrowsTail(s: Shape) { s.head + s.len >= s.cap }

  predicate GrowsHead(s: Shape) { s.head == 0 }

  function Pushed(s: Shape): Shape
    requires Fits(s)
  {
    var g := if GrowsTail(s) then Grown(s, false) else s;
    g.(len := g.len + 1)
  }

  /** The one buffer that a grow for the head leaves without headroom. */
  predicate Stuck(s: Shape) { s.cap == 7 && s.len == 7 }

  /** push_head decrements the head it finds after growing; that head is positive in every
      array except a full one of capacity seven. */
  lemma HeadroomExactly(s: Shape)
    requires Fits(s)
    ensures (if GrowsHead(s) then Grown(s, true) else s).head > 0 <==> !Stuck(s)
  {
  }

  /** Seven adopted elements and a push_head: the grown array has head 0. */
  lemma SevenAdopted()
    ensures Fits(Shape(7, 0, 7)) && GrowsHead(Shape(7, 0, 7)) && Grown(Shape(7, 0, 7), true) == Shape(8, 0, 7)
  {
  }

  function PushedHead(s: Shape): Shape
    requires Fits(s) && !Stuck(s)
  {
    var g := if GrowsHead(s) then Grown(s, true) else s;
    Shape(g.cap, g.head - 1, g.len + 1)
  }

  /** concat copies both operands into a new array from its head on; they fit exactly when
      there are at most six elements, because a new array keeps a quarter free in front. */
  lemma ConcatFitsExactly(total: nat)
    ensures Fits(Made(total).(len := total)) <==> total <= 6
  {
  }

  datatype Op = Push | Pop | PushHead | PopHead

  predicate Enabled(s: Shape, op: Op) {
    Fits(s) && (op.Pop? || op.PopHead? ==> s.len > 0) && (op.PushHead? ==> !Stuck(s))
  }

  function Next(s: Shape, op: Op): Shape
    requires Enabled(s, op)
  {
    match op {
      case Push => Pushed(s)
      case PushHead => PushedHead(s)
      case Pop => s.(len := s.len - 1)
      case PopHead => s.(head := s.head + 1, len := s.len - 1)
    }
  }

  /** How many elements the operation moves to a new buffer. */
  function Copies(s: Shape, op: Op): nat {
    if (op.Push? && GrowsTail(s)) || (op.PushHead? && GrowsHead(s)) then s.len else 0
  }

  function IsPush(op: Op): nat { if op.Push? || op.PushHead? then 1 else 0 }

  // ---------------------------------------------------------------- amortised cost

  function Max(a: int, b: int): int { if a < b then b else a }

  /** What the pushes since the last grow have paid in advance. */
  function Credit(s: Shape): nat {
    var half := s.cap / 2;
    8 * Max(Max(0, s.len - half), Max(half / 4 - s.head, half / 4 - (s.cap - s.head - s.len)))
  }

  /** A grow leaves an eighth of the new buffer free at both ends, so nothing is owed. */
  lemma GrownFresh(s: Shape, forHead: bool)
    requires Fits(s) && s.cap >= INIT_CAP
    ensures var g := Grown(s, forHead);
            Fits(g) && g.cap == 2 * s.cap && g.head >= g.cap / 8 && g.cap - g.head - g.len >= g.cap / 8
                && Credit(g) == 0
  {
  }

  /** When an end is exhausted the credit covers the whole move. */
  lemma CreditCovers(s: Shape)
    requires Fits(s) && s.cap >= INIT_CAP && (GrowsTail(s) || GrowsHead(s))
    ensures Credit(s) >= s.len
  {
    var half := s.cap / 2;
    if s.len > 8 * (half / 4) { assert 8 * (s.len - half) >= s.len; }
  }

  /** A push into a free slot adds at most its own eight. */
  lemma PushCredit(s: Shape)
    requires Fits(s)
    ensures Credit(s.(len := s.len + 1)) <= Credit(s) + 8
    ensures s.head > 0 ==> Credit(Shape(s.cap, s.head - 1, s.len + 1)) <= Credit(s) + 8
  {
  }

  lemma PopCredit(s: Shape)
    requires Fits(s) && s.len > 0
    ensures Credit(s.(len := s.len - 1)) <= Credit(s)
    ensures Credit(Shape(s.cap, s.head + 1, s.len - 1)) <= Credit(s)
  {
  }

  lemma PushCost(s: Shape)
    requires Fits(s) && s.cap >= INIT_CAP
    ensures Fits(Pushed(s)) && Pushed(s).cap >= INIT_CAP
    ensures Copies(s, Push) + Credit(Pushed(s)) <= 8 + Credit(s)
  {
    if GrowsTail(s) {
      GrownFresh(s, false);
      CreditCovers(s);
      PushCredit(Grown(s, false));
    } else {
      PushCredit(s);
    }
  }

  lemma PushHeadCost(s: Shape)
    requires Fits(s) && s.cap >= INIT_CAP
    ensures Fits(PushedHead(s)) && PushedHead(s).cap >= INIT_CAP
    ensures Copies(s, PushHead) + Credit(PushedHead(s)) <= 8 + Credit(s)
  {
    if GrowsHead(s) {
      GrownFresh(s, true);
      CreditCovers(s);
      PushCredit(Grown(s, true));
    } else {
      PushCredit(s);
    }
  }

  lemma StepCost(s: Shape, op: Op)
    requires Enabled(s, op) && s.cap >= INIT_CAP
    ensures Fits(Next(s, op)) && Next(s, op).cap >= INIT_CAP
    ensures Copies(s, op) + Credit(Next(s, op)) <= 8 * IsPush(op) + Credit(s)
  {
    match op {
      case Push => PushCost(s);
      case PushHead => PushHeadCost(s);
      case Pop => PopCredit(s);
      case PopHead => PopCredit(s);
    }
  }

  ghost predicate IsRun(run: seq<Shape>, ops: seq<Op>) {
    && |run| == |ops| + 1
    && forall i :: 0 <= i < |ops| ==> Enabled(run[i], ops[i]) && run[i + 1] == Next(run[i], ops[i])
  }

  function TotalCopies(run: seq<Shape>, ops: seq<Op>): nat
    requires |run| == |ops| + 1
  {
    if ops == [] then 0
    else TotalCopies(run[..|ops|], ops[..|ops| - 1]) + Copies(run[|ops| - 1], ops[|ops| - 1])
  }

  function TotalPushes(ops: seq<Op>): nat {
    if ops == [] then 0 else TotalPushes(ops[..|ops| - 1]) + IsPush(ops[|ops| - 1])
  }

  lemma {:induction false} RunCost(run: seq<Shape>, ops: seq<Op>)
    requires IsRun(run, ops) && Fits(run[0]) && run[0].cap >= INIT_CAP
    ensures Fits(run[|ops|]) && run[|ops|].cap >= INIT_CAP
    ensures TotalCopies(run, ops) + Credit(run[|ops|]) <= 8 * TotalPushes(ops) + Credit(run[0])
    decreases |ops|
  {
    if ops != [] {
      var n := |ops| - 1;
      RunCost(run[..n + 1], ops[..n]);
      StepCost(run[n], ops[n]);
    }
  }

  /** From a new array on, any mix of operations moves at most eight elements per push. */
  lemma AmortisedPush(run: seq<Shape>, ops: seq<Op>, initialCap: nat)
    requires IsRun(run, ops) && run[0] == Made(initialCap)
    ensures TotalCopies(run, ops) <= 8 * TotalPushes(ops)
  {
    RunCost(run, ops);
  }
}

/** The array object. */
module DequeObject {
  import opened Common
  import opened DequeShape

  class Deque<V(0)> {
    var data: array<V>
    var head: nat
    var len: nat

    ghost function ShapeOf(): Shape
      reads this
    {
      Shape(data.Length, head, len)
    }

    ghost predicate Valid()
      reads this
    {
      Fits(ShapeOf())
    }

    ghost function Contents(): seq<V>
      reads this, data
      requires Valid()
    {
      data[head..head + len]
    }

    constructor (initialCap: nat)
      ensures Valid() && Contents() == [] && fresh(data) && ShapeOf() == Made(initialCap)
    {
      var cap := if initialCap < INIT_CAP then INIT_CAP else initialCap;
      data := new V[cap];
      head := cap / 4;
      len := 0;
    }

    /** goc_array_from: adopt a buffer. */
    constructor From(items: array<V>)
      ensures Valid() && Contents() == items[..] && data == items && ShapeOf() == Shape(items.Length, 0, items.Length)
    {
      data, head, len := items, 0, items.Length;
    }

    method Grow(forHead: bool)
      requires Valid()
      modifies this`data, this`head
      ensures Valid() && ShapeOf() == Grown(old(ShapeOf()), forHead) && Contents() == old(Contents()) && fresh(data)
    {
      var newCap := if data.Length < INIT_CAP then INIT_CAP else data.Length * 2;
      var newData := new V[newCap];
      var slack := newCap - len;
      var newHead := if forHead then slack * 3 / 4 else slack / 4;
      CopyInto(newData, newHead);
      data, head := newData, newHead;
    }

    /** The memcpy of the live elements to a place in another buffer. */
    method CopyInto(target: array<V>, at: nat)
      requires Valid() && target != data && at + len <= target.Length
      modifies target
      ensures target[at..at + len] == Contents()
      ensures forall j :: 0 <= j < target.Length && !(at <= j < at + len) ==> target[j] == old(target[j])
    {
      forall i | at <= i < at + len { target[i] := data[head + (i - at)]; }
    }

    method Push(v: V)
      requires Valid()
      modifies this, data
      ensures Valid() && Contents() == old(Contents()) + [v] && ShapeOf() == Pushed(old(ShapeOf()))
      ensures data == old(data) || fresh(data)
    {
      if head + len >= data.Length {
        Grow(false);
      }
      ghost var was := Contents();
      data[head + len] := v;
      len := len + 1;
      assert Contents()[..len - 1] == was;
    }

    /** None is the abort on an empty array. */
    method Pop() returns (r: Option<V>)
      requires Valid()
      modifies this`len
      ensures Valid()
      ensures old(len) == 0 ==> r == None && Contents() == []
      ensures old(len) > 0 ==> r.Some? && old(Contents()) == Contents() + [r.value]
      ensures old(len) > 0 ==> ShapeOf() == Next(old(ShapeOf()), DequeShape.Pop)
    {
      if len == 0 { return None; }
      len := len - 1;
      r := Some(data[head + len]);
    }

    /** False is the write in front of the buffer: after growing the head is still at 0. */
    method PushHead(v: V) returns (ok: bool)
      requires Valid()
      modifies this, data
      ensures Valid() && ok == !Stuck(old(ShapeOf())) && (data == old(data) || fresh(data))
      ensures ok ==> Contents() == [v] + old(Contents()) && ShapeOf() == PushedHead(old(ShapeOf()))
      ensures !ok ==> Contents() == old(Contents()) && ShapeOf() == Grown(old(ShapeOf()), true) && head == 0
    {
      HeadroomExactly(ShapeOf());
      if head == 0 {
        Grow(true);
      }
      if head == 0 { return false; }
      ghost var was := Contents();
      head := head - 1;
      data[head] := v;
      len := len + 1;
      ok := true;
      assert Contents()[1..] == was;
    }

    method PopHead() returns (r: Option<V>)
      requires Valid()
      modifies this`head, this`len
      ensures Valid()
      ensures old(len) == 0 ==> r == None && Contents() == []
      ensures old(len) > 0 ==> r.Some? && old(Contents()) == [r.value] + Contents()
      ensures old(len) > 0 ==> ShapeOf() == Next(old(ShapeOf()), DequeShape.PopHead)
    {
      if len == 0 { return None; }
      r := Some(data[head]);
      head := head + 1;
      len := len - 1;
    }

    /** None is the abort on an index out of bounds. */
    method Get(i: nat) returns (r: Option<V>)
      requires Valid()
      ensures r == if i < |Contents()| then Some(Contents()[i]) else None
    {
      if i >= len { return None; }
      r := Some(data[head + i]);
    }

    method Set(i: nat, v: V) returns (ok: bool)
      requires Valid()
      modifies data
      ensures Valid() && ok == (i < |old(Contents())|)
      ensures Contents() == if ok then old(Contents())[i := v] else old(Contents())
    {
      if i >= len { return false; }
      data[head + i] := v;
      ok := true;
      assert Contents() == old(Contents())[i := v];
    }

    method Copy() returns (copy: Deque<V>)
      requires Valid()
      ensures fresh(copy) && fresh(copy.data) && copy.Valid() && copy.Contents() == Contents()
    {
      if len == 0 {
        copy := new Deque(0);
        return;
      }
      var buf := new V[len](i requires 0 <= i < len && Valid() reads this, data => data[head + i]);
      assert buf[..] == Contents();
      copy := new Deque.From(buf);
    }

    /** The two memcpys of a concat. */
    method CopyBoth(b: Deque<V>, target: array<V>, at: nat)
      requires Valid() && b.Valid() && target != data && target != b.data && at + len + b.len <= target.Length
      modifies target
      ensures target[at..at + len + b.len] == Contents() + b.Contents()
    {
      var mid := at + len;
      CopyInto(target, at);
      ghost var front := target[at..mid];
      b.CopyInto(target, mid);
      assert target[at..mid] == front;
      Adjacent(target[..], at, mid, mid + b.len);
    }

    /** None is the copy past the end of the new buffer, which seven elements or more run into. */
    static method Concat(a: Deque<V>, b: Deque<V>) returns (out: Option<Deque<V>>)
      requires a.Valid() && b.Valid()
      ensures out.Some? <==> a.len + b.len <= 6
      ensures out.Some? ==> fresh(out.value) && fresh(out.value.data) && out.value.Valid()
      ensures out.Some? ==> out.value.Contents() == a.Contents() + b.Contents()
    {
      var total := a.len + b.len;
      ConcatFitsExactly(total);
      var d := new Deque(total);
      if d.head + total > d.data.Length { return None; }
      a.CopyBoth(b, d.data, d.head);
      d.len := total;
      out := Some(d);
    }
  }

  lemma Adjacent<V>(s: seq<V>, i: nat, j: nat, k: nat)
    requires i <= j <= k <= |s|
    ensures s[i..k] == s[i..j] + s[j..k]
  {
  }
}
