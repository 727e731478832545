/** The insertion-ordered dictionary object: hash table plus sidecar array of keys. */
module DictObject {
  import opened Common
  import opened DictTable
  import opened OrderedMap

  // ------------------------------------------------------------- the key sidecar

  /** What walking the key array and looking each key up yields. */
  function Listed<V>(order: seq<Option<string>>, m: map<string, V>): Entries<V> {
    if order == [] then []
    else
      var k := order[|order| - 1];
      Listed(order[..|order| - 1], m) + (if k.Some? && k.value in m then [(k.value, m[k.value])] else [])
  }

  /** The key array lists every live key exactly once, in between nulled-out slots. */
  ghost predicate OrderOk<V>(order: seq<Option<string>>, m: map<string, V>) {
    && Once(order)
    && (forall i :: 0 <= i < |order| && order[i].Some? ==> order[i].value in m)
    && (forall k :: k in m ==> Some(k) in order)
  }

  ghost predicate Once(order: seq<Option<string>>) {
    forall i, j :: 0 <= i < j < |order| && order[i].Some? ==> order[i] != order[j]
  }

  lemma ListedStep<V>(order: seq<Option<string>>, m: map<string, V>, i: nat)
    requires i < |order|
    ensures Listed(order[..i + 1], m) ==
            if order[i].Some? && order[i].value in m then Listed(order[..i], m) + [(order[i].value, m[order[i].value])]
            else Listed(order[..i], m)
  {
    assert order[..i + 1][..i] == order[..i];
    assert Listed(order[..i], m) + [] == Listed(order[..i], m);
  }

  lemma {:induction false} ListedMentions<V>(order: seq<Option<string>>, m: map<string, V>, k: string)
    ensures Mentions(Listed(order, m), k) <==> k in m && Some(k) in order
  {
    if order != [] {
      var n := |order| - 1;
      ListedMentions(order[..n], m, k);
      var es, fs := Listed(order[..n], m), Listed(order, m);
      assert order == order[..n] + [order[n]];
      if Mentions(es, k) { var i :| 0 <= i < |es| && es[i].0 == k; assert fs[i].0 == k; }
      if Mentions(fs, k) && !Mentions(es, k) {
        var i :| 0 <= i < |fs| && fs[i].0 == k;
        assert i == |es|;
      }
      if k in m && order[n] == Some(k) { assert fs[|es|].0 == k; }
    }
  }

  lemma {:induction false} ListedSame<V>(order: seq<Option<string>>, m: map<string, V>, n: map<string, V>)
    requires forall k :: Some(k) in order ==> (k in m <==> k in n) && (k in m ==> m[k] == n[k])
    ensures Listed(order, m) == Listed(order, n)
  {
    if order != [] { ListedSame(order[..|order| - 1], m, n); }
  }

  lemma {:induction false} ListedDistinct<V>(order: seq<Option<string>>, m: map<string, V>)
    requires Once(order)
    ensures Distinct(Listed(order, m))
  {
    if order != [] {
      var n := |order| - 1; var es := Listed(order[..n], m);
      ListedDistinct(order[..n], m);
      if order[n].Some? && order[n].value in m {
        ListedMentions(order[..n], m, order[n].value);
        assert Some(order[n].value) !in order[..n];
      }
    }
  }

  lemma {:induction false} ListedLookup<V>(order: seq<Option<string>>, m: map<string, V>, k: string)
    requires Once(order)
    ensures Lookup(Listed(order, m), k) == if k in m && Some(k) in order then Some(m[k]) else None
  {
    if order != [] {
      var n := |order| - 1; var es := Listed(order[..n], m);
      ListedLookup(order[..n], m, k);
      assert order == order[..n] + [order[n]];
      if order[n].Some? && order[n].value in m {
        var last := [(order[n].value, m[order[n].value])];
        LookupCat(es, last, k);
        assert Lookup(last[1..], k) == None;
      } else {
        assert es + [] == es;
      }
    }
  }

  lemma {:induction false} LookupCat<V>(es: Entries<V>, fs: Entries<V>, k: string)
    ensures Lookup(es + fs, k) == if Lookup(es, k).Some? then Lookup(es, k) else Lookup(fs, k)
  {
    if es == [] { assert es + fs == fs; }
    else { assert (es + fs)[1..] == es[1..] + fs; LookupCat(es[1..], fs, k); }
  }

  /** Rebinding a key that is listed. */
  lemma {:induction false} ListedRebind<V>(order: seq<Option<string>>, m: map<string, V>, k: string, v: V)
    requires Once(order) && k in m && Some(k) in order
    ensures Listed(order, m[k := v]) == Put(Listed(order, m), k, v)
  {
    var n := |order| - 1; var es := Listed(order[..n], m);
    assert order == order[..n] + [order[n]];
    ListedMentions(order[..n], m, k);
    var last := if order[n].Some? && order[n].value in m then [(order[n].value, m[order[n].value])] else [];
    PutCat(es, last, k, v);
    if order[n] == Some(k) {
      assert Some(k) !in order[..n];
      ListedSame(order[..n], m, m[k := v]);
    } else {
      ListedRebind(order[..n], m, k, v);
    }
  }

  /** Appending a key that is new. */
  lemma ListedAppend<V>(order: seq<Option<string>>, m: map<string, V>, k: string, v: V)
    requires k !in m && Some(k) !in order
    ensures Listed(order + [Some(k)], m[k := v]) == Put(Listed(order, m), k, v)
  {
    assert (order + [Some(k)])[..|order|] == order;
    ListedSame(order, m, m[k := v]);
    ListedMentions(order, m, k);
    PutNew(Listed(order, m), k, v);
  }

  /** Nulling a listed key out. */
  lemma {:induction false} ListedNull<V>(order: seq<Option<string>>, m: map<string, V>, i: nat)
    requires Once(order) && i < |order| && order[i].Some? && order[i].value in m
    ensures Listed(order[i := None], m - {order[i].value}) == Remove(Listed(order, m), order[i].value)
  {
    var n := |order| - 1; var k := order[i].value; var es := Listed(order[..n], m);
    var last := if order[n].Some? && order[n].value in m then [(order[n].value, m[order[n].value])] else [];
    ListedMentions(order[..n], m, k);
    RemoveCat(es, last, k);
    if i == n {
      assert order[i := None][..n] == order[..n];
      assert Some(k) !in order[..n];
      ListedSame(order[..n], m, m - {k});
    } else {
      assert order[i := None][..n] == order[..n][i := None];
      assert order[..n][i] == Some(k);
      ListedNull(order[..n], m, i);
    }
  }

  // ------------------------------------------------------------------ capacities

  const MIN_CAP := 8

  ghost predicate IsPow2(n: nat) { n == 1 || (n > 0 && n % 2 == 0 && IsPow2(n / 2)) }

  lemma {:induction false} Pow2Gap(a: nat, b: nat)
    requires IsPow2(a) && IsPow2(b) && a < b
    ensures 2 * a <= b
  {
    if a > 1 { Pow2Gap(a / 2, b / 2); }
  }

  /** The least power of two that is at least MIN_CAP and at least what was asked for. */
  method RoundCap(requested: nat) returns (cap: nat)
    ensures IsPow2(cap) && cap >= MIN_CAP && cap >= requested && (cap > MIN_CAP ==> cap < 2 * requested)
    ensures IsPow2(requested) && requested >= MIN_CAP ==> cap == requested
  {
    cap := MIN_CAP;
    assert IsPow2(8) by { assert IsPow2(4) by { assert IsPow2(2); } }
    while cap < requested
      invariant IsPow2(cap) && cap >= MIN_CAP && (cap > MIN_CAP ==> cap < 2 * requested)
    {
      cap := cap * 2;
    }
    if IsPow2(requested) && requested >= MIN_CAP && requested < cap { Pow2Gap(requested, cap); }
  }

  // --------------------------------------------------- what every operation keeps

  /** Live keys are reachable, the counters count, some slot is vacant, and the key array and
      the table agree. */
  ghost predicate DictOk<V>(cells: seq<Cell<V>>, hash: string -> nat, occupied: nat, len: nat,
      order: seq<Option<string>>) {
    && |cells| >= MIN_CAP && IsPow2(|cells|)
    && TableOk(cells, hash)
    && occupied == Used(cells) < |cells|
    && len == Live(cells)
    && OrderOk(order, Contents(cells))
  }

  lemma RebindOk<V>(cells: seq<Cell<V>>, hash: string -> nat, occupied: nat, len: nat, order: seq<Option<string>>,
      i: nat, v: V)
    requires DictOk(cells, hash, occupied, len, order) && i < |cells| && cells[i].Full?
    ensures DictOk(cells[i := Full(cells[i].key, v)], hash, occupied, len, order)
    ensures Listed(order, Contents(cells[i := Full(cells[i].key, v)]))
            == Put(Listed(order, Contents(cells)), cells[i].key, v)
  {
    var k := cells[i].key;
    ContentsHas(cells, i);
    PlaceOk(cells, hash, k, v, i);
    CountSet(cells, i, Full(k, v));
    ListedRebind(order, Contents(cells), k, v);
  }

  lemma InsertOk<V>(cells: seq<Cell<V>>, hash: string -> nat, occupied: nat, len: nat, order: seq<Option<string>>,
      i: nat, k: string, v: V)
    requires DictOk(cells, hash, occupied, len, order) && i < |cells| && !cells[i].Full? && k !in Contents(cells)
    requires occupied + 1 < |cells|
    requires Clear(cells, Home(hash, k, |cells|), Dist(Home(hash, k, |cells|), i, |cells|))
    ensures DictOk(cells[i := Full(k, v)], hash, if cells[i].Vacant? then occupied + 1
            else occupied, len + 1, order + [Some(k)])
    ensures Listed(order + [Some(k)], Contents(cells[i := Full(k, v)])) == Put(Listed(order, Contents(cells)), k, v)
  {
    AbsentIff(cells, k);
    PlaceOk(cells, hash, k, v, i);
    CountSet(cells, i, Full(k, v));
    OrderAppend(order, Contents(cells), k, v);
    ListedAppend(order, Contents(cells), k, v);
  }

  lemma OrderAppend<V>(order: seq<Option<string>>, m: map<string, V>, k: string, v: V)
    requires OrderOk(order, m) && k !in m
    ensures OrderOk(order + [Some(k)], m[k := v]) && Some(k) !in order
  {
  }

  lemma OrderNull<V>(order: seq<Option<string>>, m: map<string, V>, i: nat)
    requires OrderOk(order, m) && i < |order| && order[i].Some?
    ensures OrderOk(order[i := None], m - {order[i].value})
  {
    var k := order[i].value; var after := order[i := None];
    forall x | x in m - {k} ensures Some(x) in after {
      var j :| 0 <= j < |order| && order[j] == Some(x);
      assert after[j] == Some(x);
    }
  }

  lemma PopOk<V>(cells: seq<Cell<V>>, hash: string -> nat, occupied: nat, len: nat, order: seq<Option<string>>,
      slot: nat, i: nat)
    requires DictOk(cells, hash, occupied, len, order) && slot < |cells| && cells[slot].Full?
    requires i < |order| && order[i] == Some(cells[slot].key)
    ensures len > 0 && DictOk(cells[slot := Tombstone], hash, occupied, len - 1, order[i := None])
    ensures Listed(order[i := None], Contents(cells[slot := Tombstone]))
            == Remove(Listed(order, Contents(cells)), cells[slot].key)
  {
    ContentsHas(cells, slot);
    DropOk(cells, hash, slot);
    CountSet(cells, slot, Tombstone);
    LiveAny(cells, slot);
    OrderNull(order, Contents(cells), i);
    ListedNull(order, Contents(cells), i);
  }

  // ---------------------------------------------------------------- the dictionary

  class Dict<V> {
    const hash: string -> nat
    var cells: array<Cell<V>>
    var occupied: nat
    var len: nat
    var order: seq<Option<string>>

    ghost predicate Valid()
      reads this, cells
    {
      DictOk(cells[..], hash, occupied, len, order)
    }

    /** The ordered map this dictionary stands for. */
    ghost function View(): Entries<V>
      reads this, cells
    {
      Listed(order, Contents(cells[..]))
    }

    constructor (hash: string -> nat, initialCap: nat)
      ensures Valid() && View() == [] && fresh(cells) && this.hash == hash
    {
      var cap := RoundCap(initialCap);
      this.hash := hash;
      cells := new Cell<V>[cap](_ => Vacant);
      occupied, len, order := 0, 0, [];
      new;
      AllVacant(cells[..], hash);
    }

    /** Linear probing with tombstone reuse: the key's slot, or where it would go. */
    method Probe(key: string) returns (slot: nat)
      requires Valid()
      ensures slot < cells.Length
      ensures key in Contents(cells[..]) ==> cells[slot].Full? && cells[slot].key == key
      ensures key !in Contents(cells[..]) ==> !cells[slot].Full? && Absent(cells[..], key)
      ensures var h := Home(hash, key, cells.Length); Clear(cells[..], h, Dist(h, slot, cells.Length))
    {
      var cap := cells.Length;
      ghost var h := Home(hash, key, cap);
      ghost var stop := VacantAhead(cells[..], h);
      var idx := Home(hash, key, cap);
      var tomb: Option<nat> := None;
      ghost var d: nat := 0;
      while true
        invariant d <= stop < cap && idx == Around(h, d, cap)
        invariant Clear(cells[..], h, d)
        invariant forall e :: 0 <= e < d ==> var c := cells[..][Around(h, e, cap)]; !(c.Full? && c.key == key)
        invariant tomb.Some? ==> tomb.value < cap && cells[tomb.value].Tombstone? && Dist(h, tomb.value, cap) < d
        decreases stop - d
      {
        var c := cells[idx];
        if c.Vacant? {
          ProbeEnds(cells[..], hash, key, d);
          AbsentIff(cells[..], key);
          slot := if tomb.Some? then tomb.value else idx;
          return;
        }
        if c.Tombstone? {
          if tomb.None? { tomb := Some(idx); }
        } else if c.key == key {
          ContentsHas(cells[..], idx);
          return idx;
        }
        idx := if idx + 1 == cap then 0 else idx + 1;
        d := d + 1;
      }
    }

    method Contains(key: string) returns (r: bool)
      requires Valid()
      ensures r <==> Mentions(View(), key)
    {
      var slot := Probe(key);
      r := cells[slot].Full?;
      ListedMentions(order, Contents(cells[..]), key);
    }

    method Get(key: string) returns (r: Option<V>)
      requires Valid()
      ensures r == Lookup(View(), key)
    {
      var slot := Probe(key);
      ListedLookup(order, Contents(cells[..]), key);
      if cells[slot].Full? {
        ContentsHas(cells[..], slot);
        r := Some(cells[slot].val);
      } else {
        r := None;
      }
    }

    /** Put the live cells into a larger table; tombstones are left behind. */
    method Rehash(newCap: nat)
      requires Valid() && newCap >= cells.Length && IsPow2(newCap)
      modifies this`cells, this`occupied
      ensures Valid() && View() == old(View()) && cells.Length == newCap && fresh(cells)
              && occupied == len < old(cells.Length)
    {
      ghost var was := cells[..];
      var next := new Cell<V>[newCap](_ => Vacant);
      AllVacant(next[..], hash);
      CountBounds(was);
      var i := 0;
      while i < cells.Length
        invariant 0 <= i <= cells.Length && cells[..] == was
        invariant TableOk(next[..], hash) && Contents(next[..]) == Contents(was[..i])
        invariant Used(next[..]) == Live(next[..]) == Live(was[..i])
      {
        PrefixStep(was, i);
        if cells[i].Full? {
          AbsentIff(next[..], cells[i].key);
          Reinsert(next, cells[i].key, cells[i].val);
        }
        i := i + 1;
      }
      assert was[..i] == was;
      cells := next;
      occupied := len;
    }

    /** The inner loop of a rehash: the first vacant slot from the key's hash on. */
    method Reinsert(next: array<Cell<V>>, key: string, val: V)
      requires TableOk(next[..], hash) && Used(next[..]) < next.Length && Absent(next[..], key)
      modifies next
      ensures TableOk(next[..], hash) && Contents(next[..]) == Contents(old(next[..]))[key := val]
      ensures Used(next[..]) == Used(old(next[..])) + 1 && Live(next[..]) == Live(old(next[..])) + 1
    {
      ghost var was := next[..];
      var cap := next.Length;
      ghost var h := Home(hash, key, cap);
      ghost var stop := VacantAhead(was, h);
      var dst := Home(hash, key, cap);
      ghost var d: nat := 0;
      while !next[dst].Vacant?
        invariant d <= stop < cap && dst == Around(h, d, cap) && Clear(was, h, d) && next[..] == was
        decreases stop - d
      {
        dst := if dst + 1 == cap then 0 else dst + 1;
        d := d + 1;
      }
      PlaceOk(was, hash, key, val, dst);
      CountSet(was, dst, Full(key, val));
      next[dst] := Full(key, val);
      assert next[..] == was[dst := Full(key, val)];
    }

    /** Double the table when it is more than three quarters full. */
    method MakeRoom()
      requires Valid()
      modifies this`cells, this`occupied
      ensures Valid() && View() == old(View()) && occupied + 1 < cells.Length
      ensures cells == old(cells) || fresh(cells)
    {
      if occupied * 4 > cells.Length * 3 {
        assert IsPow2(cells.Length * 2);
        Rehash(cells.Length * 2);
      }
    }

    method Set(key: string, val: V)
      requires Valid()
      modifies this, cells
      ensures Valid() && View() == Put(old(View()), key, val)
      ensures cells == old(cells) || fresh(cells)
    {
      MakeRoom();
      Place(key, val);
    }

    /** The rest of a set, once there is room: overwrite, or use the slot and list the key. */
    method Place(key: string, val: V)
      requires Valid() && occupied + 1 < cells.Length
      modifies this`order, this`len, this`occupied, cells
      ensures Valid() && View() == Put(old(View()), key, val)
    {
      var slot := Probe(key);
      var current := cells[slot];
      if current.Full? {
        RebindOk(cells[..], hash, occupied, len, order, slot, val);
      } else {
        InsertOk(cells[..], hash, occupied, len, order, slot, key, val);
      }
      ghost var after := cells[..][slot := Full(key, val)];
      cells[slot] := Full(key, val);
      assert cells[..] == after;
      if current.Full? { return; }
      order := order + [Some(key)];
      len := len + 1;
      if current.Vacant? {
        occupied := occupied + 1;
      }
    }

    method Pop(key: string) returns (r: Option<V>)
      requires Valid()
      modifies this, cells
      ensures Valid() && View() == Remove(old(View()), key) && r == Lookup(old(View()), key)
      ensures cells == old(cells)
    {
      var slot := Probe(key);
      ListedLookup(order, Contents(cells[..]), key);
      if !cells[slot].Full? {
        RemoveAbsent(View(), key);
        return None;
      }
      ContentsHas(cells[..], slot);
      var i := 0;
      while i < |order| && order[i] != Some(key)
        invariant 0 <= i <= |order| && Some(key) !in order[..i]
      {
        i := i + 1;
      }
      assert i < |order| by { assert order[..|order|] == order; }
      PopOk(cells[..], hash, occupied, len, order, slot, i);
      ghost var after := cells[..][slot := Tombstone];
      r := Some(cells[slot].val);
      cells[slot] := Tombstone;
      assert cells[..] == after;
      len := len - 1;
      order := order[i := None];
    }

    method Copy() returns (copy: Dict<V>)
      requires Valid()
      ensures fresh(copy) && fresh(copy.cells) && copy.Valid() && copy.View() == View() && copy.hash == hash
    {
      copy := new Dict(hash, cells.Length);
      var next := new Cell<V>[cells.Length](i requires 0 <= i < cells.Length reads this, cells => cells[i]);
      assert next[..] == cells[..];
      copy.cells, copy.order, copy.len, copy.occupied := next, order, len, occupied;
    }

    /** goc_dict_entries: walk the key array, skip nulled and dead keys, look each value up. */
    method GetEntries() returns (es: Entries<V>)
      requires Valid()
      ensures es == View() && Distinct(es) && |es| == len
    {
      ListedDistinct(order, Contents(cells[..]));
      ListedLength(order, Contents(cells[..]));
      LiveIsCard(cells[..]);
      es := [];
      var i := 0;
      while i < |order|
        invariant 0 <= i <= |order| && es == Listed(order[..i], Contents(cells[..]))
      {
        ListedStep(order, Contents(cells[..]), i);
        if order[i].Some? {
          var slot := Probe(order[i].value);
          if cells[slot].Full? {
            ContentsHas(cells[..], slot);
            es := es + [(order[i].value, cells[slot].val)];
          }
        }
        i := i + 1;
      }
      assert order[..i] == order;
    }

    static method FromEntries(hash: string -> nat, entries: Entries<V>) returns (d: Dict<V>)
      ensures fresh(d) && fresh(d.cells) && d.Valid() && d.hash == hash && d.View() == PutAll([], entries)
    {
      d := new Dict(hash, |entries|);
      var i := 0;
      while i < |entries|
        invariant 0 <= i <= |entries| && fresh(d) && fresh(d.cells) && d.Valid() && d.hash == hash
        invariant d.View() == PutAll([], entries[..i])
      {
        assert entries[..i + 1] == entries[..i] + [entries[i]];
        PutAllOne([], entries[..i], entries[i]);
        d.Set(entries[i].0, entries[i].1);
        i := i + 1;
      }
      assert entries[..i] == entries;
    }

    /** One turn of a merge: the binding of the j-th listed key, if it is live. */
    method PutListed(source: Dict<V>, j: nat, ghost start: Entries<V>)
      requires Valid() && source.Valid() && source != this && source.cells != cells && j < |source.order|
      requires View() == PutAll(start, Listed(source.order[..j], Contents(source.cells[..])))
      modifies this, cells
      ensures Valid() && (cells == old(cells) || fresh(cells))
      ensures View() == PutAll(start, Listed(old(source.order)[..j + 1], Contents(old(source.cells[..]))))
    {
      ghost var m := Contents(source.cells[..]);
      ListedStep(source.order, m, j);
      if source.order[j].Some? {
        var key := source.order[j].value;
        var slot := source.Probe(key);
        if source.cells[slot].Full? {
          ContentsHas(source.cells[..], slot);
          PutAllOne(start, Listed(source.order[..j], m), (key, m[key]));
          Set(key, source.cells[slot].val);
        }
      }
    }

    /** The inner loop of a merge: put the source's live bindings in its order. */
    method PutFrom(source: Dict<V>)
      requires Valid() && source.Valid() && source != this && source.cells != cells
      modifies this, cells
      ensures Valid() && View() == PutAll(old(View()), old(source.View()))
      ensures cells == old(cells) || fresh(cells)
    {
      ghost var start := View();
      ghost var keys, m := source.order, Contents(source.cells[..]);
      var j := 0;
      while j < |source.order|
        invariant 0 <= j <= |keys| && Valid() && (cells == old(cells) || fresh(cells))
        invariant source.order == keys && Contents(source.cells[..]) == m
        invariant View() == PutAll(start, Listed(keys[..j], m))
      {
        PutListed(source, j, start);
        j := j + 1;
      }
      assert keys[..j] == keys;
    }

    /** A copy of the first dictionary, with the others merged in from left to right; the
        arguments are left alone. */
    static method MergeMany(hash: string -> nat, dicts: seq<Dict<V>>, ghost views: seq<Entries<V>>)
        returns (merged: Dict<V>)
      requires |views| == |dicts| && forall i :: 0 <= i < |dicts| ==> dicts[i].Valid() && dicts[i].View() == views[i]
      ensures fresh(merged) && fresh(merged.cells) && merged.Valid()
      ensures merged.View() == if views == [] then [] else MergeAll(views[0], views[1..])
      ensures forall i :: 0 <= i < |dicts| ==> dicts[i].Valid() && dicts[i].View() == views[i]
    {
      if |dicts| == 0 {
        merged := new Dict(hash, 0);
        return;
      }
      merged := dicts[0].Copy();
      var i := 1;
      while i < |dicts|
        invariant 1 <= i <= |dicts| && fresh(merged) && fresh(merged.cells) && merged.Valid()
        invariant MergeAll(merged.View(), views[i..]) == MergeAll(views[0], views[1..])
        invariant forall k :: 0 <= k < |dicts| ==> dicts[k].Valid() && dicts[k].View() == views[k]
      {
        assert views[i..][0] == views[i] && views[i..][1..] == views[i + 1..];
        merged.PutFrom(dicts[i]);
        i := i + 1;
      }
    }
  }

  lemma {:induction false} PrefixLive<V>(cells: seq<Cell<V>>, i: nat)
    requires i < |cells|
    ensures Live(cells[..i]) + (if cells[i].Full? then 1 else 0) <= Live(cells)
  {
    var n := |cells| - 1;
    if i < n { assert cells[..n][..i] == cells[..i]; PrefixLive(cells[..n], i); }
  }

  /** What the first i + 1 cells of a table hold, from what the first i hold. */
  lemma PrefixStep<V>(cells: seq<Cell<V>>, i: nat)
    requires Unique(cells) && i < |cells|
    ensures Live(cells[..i + 1]) == Live(cells[..i]) + (if cells[i].Full? then 1 else 0) <= Live(cells)
    ensures cells[i].Full? ==> cells[i].key !in Contents(cells[..i])
    ensures Contents(cells[..i + 1]) ==
            if cells[i].Full? then Contents(cells[..i])[cells[i].key := cells[i].val] else Contents(cells[..i])
  {
    assert cells[..i + 1][..i] == cells[..i];
    PrefixLive(cells, i);
    if cells[i].Full? { AbsentIff(cells[..i], cells[i].key); }
  }

  lemma LiveAny<V>(cells: seq<Cell<V>>, i: nat)
    requires i < |cells| && cells[i].Full?
    ensures Live(cells) > 0
  {
    PrefixLive(cells, i);
  }

  lemma {:induction false} RemoveAbsent<V>(es: Entries<V>, k: string)
    requires Lookup(es, k) == None
    ensures Remove(es, k) == es
  {
    if es != [] { RemoveAbsent(es[1..], k); }
  }

  lemma PutAllOne<V>(es: Entries<V>, fs: Entries<V>, e: (string, V))
    ensures PutAll(es, fs + [e]) == Put(PutAll(es, fs), e.0, e.1)
  {
    PutAllCat(es, fs, [e]);
    assert PutAll(Put(PutAll(es, fs), e.0, e.1), [e][1..]) == Put(PutAll(es, fs), e.0, e.1);
  }

  lemma OrderInit<V>(order: seq<Option<string>>, m: map<string, V>)
    requires OrderOk(order, m) && order != []
    ensures var k := order[|order| - 1]; OrderOk(order[..|order| - 1], if k.Some? then m - {k.value} else m)
    ensures var k := order[|order| - 1]; k.Some? ==> k !in order[..|order| - 1] && k.value in m
  {
    var n := |order| - 1;
    assert order == order[..n] + [order[n]];
  }

  /** The key array lists as many bindings as the table holds. */
  lemma {:induction false} ListedLength<V>(order: seq<Option<string>>, m: map<string, V>)
    requires OrderOk(order, m)
    ensures |Listed(order, m)| == |m|
  {
    if order == [] {
      assert m == map[];
    } else {
      var n := |order| - 1;
      OrderInit(order, m);
      if order[n].Some? {
        var k := order[n].value;
        ListedSame(order[..n], m, m - {k});
        ListedLength(order[..n], m - {k});
        assert m == (m - {k})[k := m[k]];
      } else {
        ListedLength(order[..n], m);
      }
    }
  }

  lemma AllVacant<V>(cells: seq<Cell<V>>, hash: string -> nat)
    requires forall i :: 0 <= i < |cells| ==> cells[i].Vacant?
    ensures TableOk(cells, hash) && Used(cells) == 0 && Live(cells) == 0 && Contents(cells) == map[]
  {
    CountBounds(cells);
    if k :| k in Contents(cells) { var i := ContentsFind(cells, k); }
  }
}
