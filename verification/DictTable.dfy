/**
 The dictionary's open-addressing table as a value: linear probing with tombstones over a table
 of cells, for any hash function.
 */
module DictTable {

  datatype Cell<+V> = Vacant | Tombstone | Full(key: string, val: V)

  // ----------------------------------------------------------------- probe paths

  /** The slot reached from h after d steps around a table of cap slots. */
  function Around(h: nat, d: nat, cap: nat): nat
    requires h < cap && d <= cap
  {
    if h + d < cap then h + d else h + d - cap
  }

  /** How many steps lead from h to i. */
  function Dist(h: nat, i: nat, cap: nat): nat
    requires h < cap && i < cap
  {
    if h <= i then i - h else i + cap - h
  }

  function Home(hash: string -> nat, k: string, cap: nat): nat
    requires cap > 0
    ensures Home(hash, k, cap) < cap
  {
    hash(k) % cap
  }

  /** No vacant slot on the first d steps from h. */
  ghost predicate Clear<V>(cells: seq<Cell<V>>, h: nat, d: nat)
    requires h < |cells| && d <= |cells|
  {
    forall e :: 0 <= e < d ==> !cells[Around(h, e, |cells|)].Vacant?
  }

  ghost predicate Unique<V>(cells: seq<Cell<V>>) {
    forall i, j :: 0 <= i < j < |cells| && cells[i].Full? && cells[j].Full? ==> cells[i].key != cells[j].key
  }

  /** Every live key is reached from its hash without crossing a vacant slot. */
  ghost predicate Reachable<V>(cells: seq<Cell<V>>, hash: string -> nat) {
    forall i :: 0 <= i < |cells| && cells[i].Full? ==>
      Clear(cells, Home(hash, cells[i].key, |cells|), Dist(Home(hash, cells[i].key, |cells|), i, |cells|))
  }

  ghost predicate TableOk<V>(cells: seq<Cell<V>>, hash: string -> nat) {
    Unique(cells) && Reachable(cells, hash)
  }

  // -------------------------------------------------------------------- contents

  /** The bindings of a table, the last of equal keys winning. */
  function Contents<V>(cells: seq<Cell<V>>): map<string, V> {
    if cells == [] then map[]
    else
      var c := cells[|cells| - 1]; var m := Contents(cells[..|cells| - 1]);
      if c.Full? then m[c.key := c.val] else m
  }

  lemma {:induction false} ContentsHas<V>(cells: seq<Cell<V>>, i: nat)
    requires Unique(cells) && i < |cells| && cells[i].Full?
    ensures cells[i].key in Contents(cells) && Contents(cells)[cells[i].key] == cells[i].val
  {
    if i < |cells| - 1 { ContentsHas(cells[..|cells| - 1], i); }
  }

  lemma {:induction false} ContentsFind<V>(cells: seq<Cell<V>>, k: string) returns (i: nat)
    requires k in Contents(cells)
    ensures i < |cells| && cells[i].Full? && cells[i].key == k
  {
    var n := |cells| - 1;
    if cells[n].Full? && cells[n].key == k { i := n; } else { i := ContentsFind(cells[..n], k); }
  }

  predicate Absent<V>(cells: seq<Cell<V>>, k: string) {
    forall i :: 0 <= i < |cells| && cells[i].Full? ==> cells[i].key != k
  }

  lemma AbsentIff<V>(cells: seq<Cell<V>>, k: string)
    requires Unique(cells)
    ensures Absent(cells, k) <==> k !in Contents(cells)
  {
    if k in Contents(cells) { var i := ContentsFind(cells, k); }
    else {
      forall i | 0 <= i < |cells| && cells[i].Full? ensures cells[i].key != k { ContentsHas(cells, i); }
    }
  }

  /** Writing k's cell into a slot that is free, or already k's, binds k and nothing else. */
  lemma ContentsSet<V>(cells: seq<Cell<V>>, i: nat, k: string, v: V)
    requires Unique(cells) && i < |cells|
    requires (cells[i].Full? && cells[i].key == k) || (!cells[i].Full? && Absent(cells, k))
    ensures Unique(cells[i := Full(k, v)]) && Contents(cells[i := Full(k, v)]) == Contents(cells)[k := v]
  {
    var after := cells[i := Full(k, v)];
    assert Unique(after);
    var m, n := Contents(cells)[k := v], Contents(after);
    forall x | x in n ensures x in m && m[x] == n[x] {
      var j := ContentsFind(after, x);
      ContentsHas(after, j);
      if j != i { ContentsHas(cells, j); }
    }
    forall x | x in m ensures x in n {
      if x == k { ContentsHas(after, i); }
      else { var j := ContentsFind(cells, x); ContentsHas(after, j); }
    }
  }

  lemma ContentsDrop<V>(cells: seq<Cell<V>>, i: nat)
    requires Unique(cells) && i < |cells| && cells[i].Full?
    ensures Unique(cells[i := Tombstone]) && Contents(cells[i := Tombstone]) == Contents(cells) - {cells[i].key}
  {
    var after := cells[i := Tombstone];
    var m, n := Contents(cells) - {cells[i].key}, Contents(after);
    forall x | x in n ensures x in m && m[x] == n[x] {
      var j := ContentsFind(after, x);
      ContentsHas(after, j);
      ContentsHas(cells, j);
    }
    forall x | x in m ensures x in n {
      var j := ContentsFind(cells, x);
      ContentsHas(after, j);
    }
  }

  // -------------------------------------------------------------------- counting

  function Used<V>(cells: seq<Cell<V>>): nat {
    if cells == [] then 0 else Used(cells[..|cells| - 1]) + (if cells[|cells| - 1].Vacant? then 0 else 1)
  }

  function Live<V>(cells: seq<Cell<V>>): nat {
    if cells == [] then 0 else Live(cells[..|cells| - 1]) + (if cells[|cells| - 1].Full? then 1 else 0)
  }

  lemma {:induction false} CountSet<V>(cells: seq<Cell<V>>, i: nat, c: Cell<V>)
    requires i < |cells|
    ensures Used(cells[i := c]) == Used(cells) - (if cells[i].Vacant? then 0 else 1) + (if c.Vacant? then 0 else 1)
    ensures Live(cells[i := c]) == Live(cells) - (if cells[i].Full? then 1 else 0) + (if c.Full? then 1 else 0)
  {
    var n := |cells| - 1;
    if i == n { assert cells[i := c][..n] == cells[..n]; }
    else { assert cells[i := c][..n] == cells[..n][i := c]; CountSet(cells[..n], i, c); }
  }

  lemma {:induction false} CountBounds<V>(cells: seq<Cell<V>>)
    ensures Live(cells) <= Used(cells) <= |cells|
    ensures (forall i :: 0 <= i < |cells| ==> !cells[i].Vacant?) ==> Used(cells) == |cells|
    ensures (forall i :: 0 <= i < |cells| ==> cells[i].Vacant?) ==> Used(cells) == 0
  {
    if cells != [] { CountBounds(cells[..|cells| - 1]); }
  }

  /** A table with room has a vacant slot within one turn of anywhere. */
  lemma VacantAhead<V>(cells: seq<Cell<V>>, h: nat) returns (d: nat)
    requires h < |cells| && Used(cells) < |cells|
    ensures d < |cells| && cells[Around(h, d, |cells|)].Vacant?
  {
    CountBounds(cells);
    var i :| 0 <= i < |cells| && cells[i].Vacant?;
    d := Dist(h, i, |cells|);
  }

  lemma LiveIsCard<V>(cells: seq<Cell<V>>)
    requires Unique(cells)
    ensures |Contents(cells)| == Live(cells)
  {
    if cells != [] {
      var n := |cells| - 1;
      LiveIsCard(cells[..n]);
      if cells[n].Full? {
        assert Absent(cells[..n], cells[n].key);
        AbsentIff(cells[..n], cells[n].key);
      }
    }
  }

  // --------------------------------------------------------------- table updates

  /** A key is in the table exactly when the probe from its hash meets it before a vacant slot. */
  lemma ProbeEnds<V>(cells: seq<Cell<V>>, hash: string -> nat, k: string, d: nat)
    requires cells != [] && TableOk(cells, hash) && d < |cells|
    requires cells[Around(Home(hash, k, |cells|), d, |cells|)].Vacant?
    requires forall e :: 0 <= e < d ==>
               var c := cells[Around(Home(hash, k, |cells|), e, |cells|)]; !(c.Full? && c.key == k)
    ensures Absent(cells, k)
  {
    var h := Home(hash, k, |cells|);
    forall i | 0 <= i < |cells| && cells[i].Full? ensures cells[i].key != k {
      var e := Dist(h, i, |cells|);
      assert Around(h, e, |cells|) == i;
    }
  }

  lemma PlaceOk<V>(cells: seq<Cell<V>>, hash: string -> nat, k: string, v: V, i: nat)
    requires i < |cells| && TableOk(cells, hash)
    requires (cells[i].Full? && cells[i].key == k) || (!cells[i].Full? && Absent(cells, k))
    requires Clear(cells, Home(hash, k, |cells|), Dist(Home(hash, k, |cells|), i, |cells|))
    ensures TableOk(cells[i := Full(k, v)], hash)
    ensures Contents(cells[i := Full(k, v)]) == Contents(cells)[k := v]
  {
    ContentsSet(cells, i, k, v);
    var after := cells[i := Full(k, v)];
    forall j | 0 <= j < |after| && after[j].Full?
      ensures Clear(after, Home(hash, after[j].key, |after|), Dist(Home(hash, after[j].key, |after|), j, |after|))
    {
      var h := Home(hash, after[j].key, |after|);
      assert Clear(cells, h, Dist(h, j, |cells|));
    }
  }

  lemma DropOk<V>(cells: seq<Cell<V>>, hash: string -> nat, i: nat)
    requires i < |cells| && TableOk(cells, hash) && cells[i].Full?
    ensures TableOk(cells[i := Tombstone], hash)
    ensures Contents(cells[i := Tombstone]) == Contents(cells) - {cells[i].key}
  {
    ContentsDrop(cells, i);
    var after := cells[i := Tombstone];
    forall j | 0 <= j < |after| && after[j].Full?
      ensures Clear(after, Home(hash, after[j].key, |after|), Dist(Home(hash, after[j].key, |after|), j, |after|))
    {
      var h := Home(hash, after[j].key, |after|);
      assert Clear(cells, h, Dist(h, j, |cells|));
    }
  }
}
