/** The orders a select works in: arms are tried in a shuffled order, channel locks are taken in
    ascending order without repetition. */
module SelectOrder {
  import opened Common

  /** An arm of a select: a default arm, or an arm on a channel address (None for NULL). */
  datatype ArmOp = ArmOp(isDefault: bool, chan: Option<nat>)

  // ------------------------------------------------------------------ lock order

  ghost predicate Sorted(s: seq<nat>) { forall i, j :: 0 <= i < j < |s| ==> s[i] <= s[j] }

  /** The channels the arms name, in arm order. */
  function Named(ops: seq<ArmOp>): seq<nat> {
    if ops == [] then []
    else
      var op := ops[|ops| - 1];
      Named(ops[..|ops| - 1]) + (if op.isDefault || op.chan.None? then [] else [op.chan.value])
  }

  /** Put k behind everything not above it. */
  function Insert(s: seq<nat>, k: nat): seq<nat> {
    if s == [] || s[|s| - 1] <= k then s + [k] else Insert(s[..|s| - 1], k) + [s[|s| - 1]]
  }

  function InsertAll(s: seq<nat>): seq<nat> {
    if s == [] then [] else Insert(InsertAll(s[..|s| - 1]), s[|s| - 1])
  }

  /** Drop each element equal to the last one kept. */
  function Dedup(s: seq<nat>): seq<nat> {
    if s == [] then []
    else
      var d := Dedup(s[..|s| - 1]);
      if d != [] && d[|d| - 1] == s[|s| - 1] then d else d + [s[|s| - 1]]
  }

  lemma {:induction false} InsertSorted(s: seq<nat>, k: nat, top: nat)
    requires Sorted(s) && k <= top && (s == [] || s[|s| - 1] <= top)
    ensures Sorted(Insert(s, k)) && forall i :: 0 <= i < |Insert(s, k)| ==> Insert(s, k)[i] <= top
  {
    if s != [] && s[|s| - 1] > k { InsertSorted(s[..|s| - 1], k, s[|s| - 1]); }
  }

  lemma {:induction false} InsertPermutes(s: seq<nat>, k: nat)
    ensures multiset(Insert(s, k)) == multiset(s) + multiset{k}
  {
    if s != [] && s[|s| - 1] > k {
      InsertPermutes(s[..|s| - 1], k);
      assert s == s[..|s| - 1] + [s[|s| - 1]];
    }
  }

  lemma {:induction false} InsertAllSorted(s: seq<nat>)
    ensures Sorted(InsertAll(s)) && multiset(InsertAll(s)) == multiset(s)
  {
    if s != [] {
      var t, k := InsertAll(s[..|s| - 1]), s[|s| - 1];
      InsertAllSorted(s[..|s| - 1]);
      InsertSorted(t, k, if t == [] || t[|t| - 1] <= k then k else t[|t| - 1]);
      InsertPermutes(t, k);
      assert s == s[..|s| - 1] + [k];
    }
  }

  lemma {:induction false} DedupLast(s: seq<nat>)
    ensures |Dedup(s)| <= |s| && (s != [] ==> Dedup(s) != [] && Dedup(s)[|Dedup(s)| - 1] == s[|s| - 1])
  {
    if s != [] { DedupLast(s[..|s| - 1]); }
  }

  lemma {:induction false} DedupSame(s: seq<nat>, x: nat)
    ensures x in Dedup(s) <==> x in s
  {
    if s != [] {
      var n := |s| - 1;
      DedupSame(s[..n], x);
      assert s == s[..n] + [s[n]];
    }
  }

  lemma {:induction false} DedupAscending(s: seq<nat>)
    requires Sorted(s)
    ensures Ascending(Dedup(s))
  {
    if s != [] {
      var n := |s| - 1; var d := Dedup(s[..n]);
      DedupAscending(s[..n]);
      DedupLast(s[..n]);
      if d != [] { assert d[|d| - 1] == s[n - 1] <= s[n]; }
    }
  }

  lemma {:induction false} InsertIs(s: seq<nat>, k: nat, j: nat)
    requires j <= |s| && (j > 0 ==> s[j - 1] <= k) && forall x :: j <= x < |s| ==> s[x] > k
    ensures Insert(s, k) == s[..j] + [k] + s[j..]
    decreases |s|
  {
    if j < |s| {
      var n := |s| - 1;
      InsertIs(s[..n], k, j);
      assert s[..n][..j] == s[..j] && s[..n][j..] + [s[n]] == s[j..];
    }
  }

  /** One turn of the insertion sort: shift what is above the key and drop it in. */
  method InsertInPlace(a: array<nat>, i: nat)
    requires i < a.Length
    modifies a
    ensures a[..i + 1] == Insert(old(a[..i]), old(a[i])) && forall x :: i < x < a.Length ==> a[x] == old(a[x])
  {
    var key := a[i];
    ghost var all := a[..];
    var j := i;
    while j > 0 && a[j - 1] > key
      invariant 0 <= j <= i
      invariant forall x :: 0 <= x < j || i < x < a.Length ==> a[x] == all[x]
      invariant forall x :: j < x <= i ==> a[x] == all[x - 1]
      invariant forall x :: j <= x < i ==> all[x] > key
    {
      a[j] := a[j - 1];
      j := j - 1;
    }
    a[j] := key;
    InsertIs(all[..i], key, j);
  }

  lemma InsertAllNext(all: seq<nat>, i: nat)
    requires i < |all|
    ensures InsertAll(all[..i + 1]) == Insert(InsertAll(all[..i]), all[i])
  {
    assert all[..i + 1][..i] == all[..i];
  }

  method InsertionSort(a: array<nat>, count: nat)
    requires count <= a.Length
    modifies a
    ensures a[..count] == InsertAll(old(a[..count]))
  {
    ghost var all := a[..];
    if count == 0 { return; }
    var i := 1;
    assert all[..1] == [all[0]];
    while i < count
      invariant 1 <= i <= count && a[..i] == InsertAll(all[..i])
      invariant forall x :: i <= x < a.Length ==> a[x] == all[x]
    {
      InsertAllNext(all, i);
      InsertInPlace(a, i);
      i := i + 1;
    }
  }

  lemma DedupNext(all: seq<nat>, i: nat)
    requires 0 < i < |all|
    ensures var d := Dedup(all[..i]);
            d != [] && Dedup(all[..i + 1]) == if d[|d| - 1] == all[i] then d else d + [all[i]]
  {
    assert all[..i + 1][..i] == all[..i];
    DedupLast(all[..i]);
  }

  /** Put a value behind the first n, when what is kept starts later. */
  method Keep(a: array<nat>, n: nat, i: nat)
    requires n <= i < a.Length
    modifies a
    ensures a[..n + 1] == old(a[..n]) + [old(a[i])] && forall x :: i < x < a.Length ==> a[x] == old(a[x])
  {
    a[n] := a[i];
  }

  method DedupInPlace(a: array<nat>, count: nat) returns (unique: nat)
    requires count <= a.Length
    modifies a
    ensures unique <= count && a[..unique] == Dedup(old(a[..count]))
  {
    if count == 0 { return 0; }
    ghost var all := a[..];
    unique := 1;
    var i := 1;
    assert Dedup(all[..1]) == [all[0]];
    while i < count
      invariant 1 <= unique <= i <= count && a[..unique] == Dedup(all[..i])
      invariant forall x :: i <= x < a.Length ==> a[x] == all[x]
    {
      DedupNext(all, i);
      if a[i] != a[unique - 1] {
        Keep(a, unique, i);
        unique := unique + 1;
      }
      i := i + 1;
    }
  }

  /** Collect the channels that the arms name. */
  method Gather(ops: seq<ArmOp>, scratch: array<nat>) returns (count: nat)
    requires |ops| <= scratch.Length
    modifies scratch
    ensures count <= |ops| && scratch[..count] == Named(ops)
  {
    count := 0;
    var i := 0;
    while i < |ops|
      invariant 0 <= count <= i <= |ops| && scratch[..count] == Named(ops[..i])
    {
      assert ops[..i + 1][..i] == ops[..i];
      if !(ops[i].isDefault || ops[i].chan.None?) {
        scratch[count] := ops[i].chan.value;
        count := count + 1;
      }
      i := i + 1;
    }
    assert ops[..i] == ops;
  }

  lemma LocksExactly(ops: seq<ArmOp>)
    ensures var locks := Dedup(InsertAll(Named(ops)));
            Ascending(locks) && forall c :: c in locks <==> Some(c) in NamedSet(ops)
  {
    var sorted := InsertAll(Named(ops));
    NamedExactly(ops);
    InsertAllSorted(Named(ops));
    DedupAscending(sorted);
    forall c: nat ensures c in Dedup(sorted) <==> c in Named(ops) {
      DedupSame(sorted, c);
      assert c in multiset(sorted) <==> c in multiset(Named(ops));
    }
  }

  /** The locks of a select: strictly ascending, and exactly the channels its arms name. */
  method DedupSortChannels(ops: seq<ArmOp>, scratch: array<nat>) returns (unique: nat)
    requires |ops| <= scratch.Length
    modifies scratch
    ensures unique <= |ops| && Ascending(scratch[..unique])
    ensures forall c :: c in scratch[..unique] <==> Some(c) in NamedSet(ops)
  {
    var count := Gather(ops, scratch);
    LocksExactly(ops);
    InsertionSort(scratch, count);
    unique := DedupInPlace(scratch, count);
  }

  /** The channels of the arms that are not default arms. */
  ghost function NamedSet(ops: seq<ArmOp>): set<Option<nat>> {
    set i | 0 <= i < |ops| && !ops[i].isDefault && ops[i].chan.Some? :: ops[i].chan
  }

  lemma {:induction false} NamedExactly(ops: seq<ArmOp>)
    ensures forall c :: c in Named(ops) <==> Some(c) in NamedSet(ops)
    ensures |Named(ops)| <= |ops|
  {
    if ops != [] {
      var n := |ops| - 1;
      NamedExactly(ops[..n]);
      forall c ensures c in Named(ops) <==> Some(c) in NamedSet(ops) {
        assert Some(c) in NamedSet(ops[..n]) ==> Some(c) in NamedSet(ops);
        assert Some(c) in NamedSet(ops) ==>
                 Some(c) in NamedSet(ops[..n]) || (ops[n].chan == Some(c) && !ops[n].isDefault);
      }
    }
  }

  // ------------------------------------------------------------------- arm order

  const WORD := 0x1_0000_0000

  /** The generator's next 32-bit state. */
  function Advance(state: nat): nat { (state * 1103515245 + 12345) % WORD }

  /** The number drawn from a state: its upper half, the sign bit masked off. */
  function Draw(state: nat): nat { (state / 0x1_0000) % 0x8000_0000 }

  function Swap(s: seq<nat>, i: nat, j: nat): seq<nat>
    requires i < |s| && j < |s|
  {
    s[i := s[j]][j := s[i]]
  }

  /** Fisher-Yates from position i down to 1, drawing from the given generator state. */
  function Shuffled(s: seq<nat>, i: nat, state: nat): seq<nat>
    requires i < |s|
    decreases i
  {
    if i == 0 then s else Shuffled(Swap(s, i, Pick(Advance(state), i)), i - 1, Advance(state))
  }

  lemma {:induction false} ShuffledPermutes(s: seq<nat>, i: nat, state: nat)
    requires i < |s|
    ensures |Shuffled(s, i, state)| == |s| && multiset(Shuffled(s, i, state)) == multiset(s)
    decreases i
  {
    if i > 0 {
      ShuffledPermutes(Swap(s, i, Pick(Advance(state), i)), i - 1, Advance(state));
    }
  }

  method SwapInPlace(a: array<nat>, n: nat, i: nat, j: nat)
    requires i < n <= a.Length && j < n
    modifies a
    ensures a[..n] == Swap(old(a[..n]), i, j) && a[n..] == old(a[n..])
  {
    a[i], a[j] := a[j], a[i];
  }

  function Pick(state: nat, i: nat): (j: nat)
    ensures j <= i
  {
    Draw(state) % (i + 1)
  }

  /** The shuffle: the first n entries are permuted in place, the rest stay. */
  method Shuffle(indices: array<nat>, n: nat, seed: nat)
    requires n <= indices.Length
    modifies indices
    ensures indices[..n] == if n < 2 then old(indices[..n]) else Shuffled(old(indices[..n]), n - 1, seed)
    ensures multiset(indices[..n]) == multiset(old(indices[..n])) && indices[n..] == old(indices[n..])
  {
    if n < 2 { return; }
    ghost var start := indices[..n];
    var state := seed;
    var i := n - 1;
    while i > 0
      invariant 0 <= i < n && Shuffled(indices[..n], i, state) == Shuffled(start, n - 1, seed)
                && indices[n..] == old(indices[n..])
    {
      state := Advance(state);
      SwapInPlace(indices, n, i, Pick(state, i));
      i := i - 1;
    }
    ShuffledPermutes(start, n - 1, seed);
  }

  function Defaults(ops: seq<ArmOp>): nat {
    if ops == [] then 0 else Defaults(ops[..|ops| - 1]) + (if ops[|ops| - 1].isDefault then 1 else 0)
  }

  /** The positions of the arms that are not default arms. */
  function Positions(ops: seq<ArmOp>): seq<nat> {
    if ops == [] then []
    else Positions(ops[..|ops| - 1]) + (if ops[|ops| - 1].isDefault then [] else [|ops| - 1])
  }

  lemma {:induction false} PositionsAscend(ops: seq<ArmOp>)
    ensures Ascending(Positions(ops)) && |Positions(ops)| == |ops| - Defaults(ops)
    ensures forall k :: 0 <= k < |Positions(ops)| ==> Positions(ops)[k] < |ops|
  {
    if ops != [] { PositionsAscend(ops[..|ops| - 1]); }
  }

  lemma {:induction false} PositionsExactly(ops: seq<ArmOp>, i: nat)
    ensures i in Positions(ops) <==> i < |ops| && !ops[i].isDefault
  {
    if ops != [] { PositionsExactly(ops[..|ops| - 1], i); }
  }

  lemma {:induction false} DefaultsPrefix(ops: seq<ArmOp>, i: nat)
    requires i <= |ops|
    ensures Defaults(ops[..i]) <= Defaults(ops)
  {
    if i < |ops| {
      assert ops[..|ops| - 1][..i] == ops[..i];
      DefaultsPrefix(ops[..|ops| - 1], i);
    } else {
      assert ops[..i] == ops;
    }
  }

  /** The collecting loop: positions of the arms that are not default arms, in order. */
  method CollectArms(ops: seq<ArmOp>, indices: array<nat>) returns (aborted: bool, n: nat, defaultArm: Option<nat>)
    requires |ops| <= indices.Length
    modifies indices
    ensures aborted <==> Defaults(ops) > 1
    ensures !aborted ==> n == |ops| - Defaults(ops) <= |ops| && indices[..n] == Positions(ops)
    ensures !aborted ==> (defaultArm.Some? <==> Defaults(ops) == 1)
    ensures defaultArm.Some? ==> defaultArm.value < |ops| && ops[defaultArm.value].isDefault
  {
    aborted, n, defaultArm := false, 0, None;
    var defaults := 0;
    var i := 0;
    while i < |ops|
      invariant 0 <= i <= |ops| && defaults == Defaults(ops[..i]) <= 1 && n == i - defaults
      invariant indices[..n] == Positions(ops[..i])
      invariant defaultArm.Some? <==> defaults == 1
      invariant defaultArm.Some? ==> defaultArm.value < i && ops[defaultArm.value].isDefault
    {
      assert ops[..i + 1][..i] == ops[..i];
      if ops[i].isDefault {
        defaults := defaults + 1;
        if defaults > 1 {
          DefaultsPrefix(ops, i + 1);
          return true, n, defaultArm;
        }
        defaultArm := Some(i);
      } else {
        indices[n] := i;
        n := n + 1;
      }
      i := i + 1;
    }
    assert ops[..i] == ops;
  }

  /** The arms to try: every arm that is not a default arm exactly once, in shuffled order;
      none of it when there are several default arms, where the runtime aborts. */
  method BuildIndexArray(ops: seq<ArmOp>, indices: array<nat>, seed: nat)
      returns (aborted: bool, n: nat, defaultArm: Option<nat>)
    requires |ops| <= indices.Length
    modifies indices
    ensures aborted <==> Defaults(ops) > 1
    ensures !aborted ==> n == |ops| - Defaults(ops) <= |ops| && multiset(indices[..n]) == multiset(Positions(ops))
    ensures !aborted ==> (defaultArm.Some? <==> Defaults(ops) == 1)
    ensures defaultArm.Some? ==> defaultArm.value < |ops| && ops[defaultArm.value].isDefault
  {
    aborted, n, defaultArm := CollectArms(ops, indices);
    if !aborted { Shuffle(indices, n, seed); }
  }
}
