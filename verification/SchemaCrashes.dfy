/** When validation crashes, in terms of what the schemas mean. */
module SchemaCrashes {
  import opened Schema
  import opened SchemaMeaning

  // ------------------------------------------------------------- where it crashes

  // A part of the value is reached when everything looked at before it is satisfied.  Crashes are
  // raised in two places: at a tuple schema whose array ends before it does, and at a key whose
  // name is not accepted in probe mode.

  ghost predicate Crashes(st: Store, rank: seq<nat>, id: nat, v: Value, probe: bool)
    requires Ranked(st, rank) && id < |st|
    decreases Size(v), rank[id], 6
  {
    var p := st[id].parent;
    if p.None? || IsBase(st[id].kind) then CrashesHere(st, rank, id, v, probe)
    else
      RankFalls(st, rank, id, p.value);
      Crashes(st, rank, p.value, v, probe) || (Sat(st, rank, p.value, v) && CrashesHere(st, rank, id, v, probe))
  }

  /** From position n to i every element satisfies the schema. */
  ghost predicate SatTo(st: Store, rank: seq<nat>, elem: nat, n: nat, i: nat, items: seq<Value>)
    requires Ranked(st, rank) && elem < |st| && i <= |items|
  {
    forall j :: n <= j < i ==> Sat(st, rank, elem, items[j])
  }

  /** Applying one schema to the elements from n on. */
  ghost predicate CrashesIn(st: Store, rank: seq<nat>, elem: nat, n: nat, items: seq<Value>, probe: bool)
    requires Ranked(st, rank) && elem < |st|
    decreases 1 + SizeItems(items), 0, 0
  {
    exists i :: n <= i < |items| && Crashes(st, rank, elem, items[i], probe) && SatTo(st, rank, elem, n, i, items)
  }

  /** Applying one schema to the value at hand. */
  ghost predicate CrashesOn(st: Store, rank: seq<nat>, id: nat, j: nat, v: Value, probe: bool)
    requires Ranked(st, rank) && id < |st| && j in Same(st[id])
    decreases Size(v), rank[id], 0
  {
    RankFalls(st, rank, id, j);
    Crashes(st, rank, j, v, probe)
  }

  ghost predicate CrashesArr(st: Store, rank: seq<nat>, id: nat, items: seq<Value>, probe: bool)
    requires Ranked(st, rank) && id < |st|
    requires var k := st[id].kind; k.Arr? || k.ArrLen? || k.ArrUnique? || k.ArrContains?
    decreases Size(List(items)), rank[id], 1
  {
    InnerHas(st, id);
    var k := st[id].kind;
    if k.ArrLen? && !(k.min <= |items| <= k.max) then false
    else
      || CrashesIn(st, rank, k.elem, 0, items, probe)
      || (k.ArrContains? && AllSat(st, rank, k.elem, items)
          && exists i :: 0 <= i < |items| && Crashes(st, rank, k.contains, items[i], true))
  }

  /** The first i positions are there and satisfy their schemas. */
  ghost predicate SatPrefix(st: Store, rank: seq<nat>, p: seq<nat>, i: nat, items: seq<Value>)
    requires Ranked(st, rank) && i <= |p| && forall j :: 0 <= j < |p| ==> p[j] < |st|
  {
    i <= |items| && forall j :: 0 <= j < i ==> Sat(st, rank, p[j], items[j])
  }

  /** Position i is missing, or its element crashes its schema. */
  ghost predicate CrashesPosition(st: Store, rank: seq<nat>, p: seq<nat>, i: nat, items: seq<Value>, probe: bool)
    requires Ranked(st, rank) && i < |p| && forall j :: 0 <= j < |p| ==> p[j] < |st|
    decreases 1 + SizeItems(items), 0, 0
  {
    i < |items| ==> Crashes(st, rank, p[i], items[i], probe)
  }

  ghost predicate CrashesPositional(st: Store, rank: seq<nat>, p: seq<nat>, items: seq<Value>, probe: bool)
    requires Ranked(st, rank) && forall j :: 0 <= j < |p| ==> p[j] < |st|
    decreases 1 + SizeItems(items), 0, 1
  {
    exists i :: 0 <= i < |p| && CrashesPosition(st, rank, p, i, items, probe) && SatPrefix(st, rank, p, i, items)
  }

  ghost predicate CrashesTuple(st: Store, rank: seq<nat>, id: nat, items: seq<Value>, probe: bool)
    requires Ranked(st, rank) && id < |st| && st[id].kind.Tuple?
    decreases Size(List(items)), rank[id], 2
  {
    InnerHas(st, id);
    var p := st[id].kind.prefix; var x := st[id].kind.extra;
    || CrashesPositional(st, rank, p, items, probe)
    || (|items| > |p| && x.Some? && SatPrefix(st, rank, p, |p|, items)
        && CrashesIn(st, rank, x.value, |p|, items, probe))
  }

  /** A name constraint crashes of its own accord, or, in probe mode, by refusing the key. */
  ghost predicate CrashesName(st: Store, rank: seq<nat>, id: nat, fields: seq<Binding>, key: string, probe: bool)
    requires Ranked(st, rank) && id < |st| && st[id].kind.Obj?
    decreases Size(Record(fields)), 0, 0
  {
    InnerHas(st, id);
    var o := st[id].kind.opts;
    o.propertyNames.Some? &&
    (Crashes(st, rank, o.propertyNames.value, Text(key), probe)
     || (probe && !Sat(st, rank, o.propertyNames.value, Text(key))))
  }

  ghost predicate NameOk(st: Store, rank: seq<nat>, id: nat, key: string)
    requires Ranked(st, rank) && id < |st| && st[id].kind.Obj?
  {
    InnerHas(st, id);
    var o := st[id].kind.opts;
    o.propertyNames.Some? ==> Sat(st, rank, o.propertyNames.value, Text(key))
  }

  ghost predicate PatternOk(st: Store, rank: seq<nat>, id: nat, fields: seq<Binding>, key: string, j: nat)
    requires Ranked(st, rank) && id < |st| && st[id].kind.Obj? && j < |st[id].kind.opts.patterns|
  {
    InnerHas(st, id);
    var o := st[id].kind.opts;
    o.patterns[j].0(key) ==> Sat(st, rank, o.patterns[j].1, Get(fields, key))
  }

  ghost predicate CrashesPattern(st: Store, rank: seq<nat>, id: nat, fields: seq<Binding>, key: string, j: nat,
      probe: bool)
    requires Ranked(st, rank) && id < |st| && st[id].kind.Obj? && j < |st[id].kind.opts.patterns|
    decreases Size(Record(fields)), 0, 0
  {
    InnerHas(st, id);
    var o := st[id].kind.opts;
    o.patterns[j].0(key) && Crashes(st, rank, o.patterns[j].1, Get(fields, key), probe)
  }

  ghost predicate CrashesPatterns(st: Store, rank: seq<nat>, id: nat, fields: seq<Binding>, key: string, probe: bool)
    requires Ranked(st, rank) && id < |st| && st[id].kind.Obj?
    decreases Size(Record(fields)), 0, 1
  {
    exists j :: 0 <= j < |st[id].kind.opts.patterns| && CrashesPattern(st, rank, id, fields, key, j, probe)
                && forall i :: 0 <= i < j ==> PatternOk(st, rank, id, fields, key, i)
  }

  ghost predicate CrashesKey(st: Store, rank: seq<nat>, id: nat, fields: seq<Binding>, key: string, probe: bool)
    requires Ranked(st, rank) && id < |st| && st[id].kind.Obj?
    decreases Size(Record(fields)), 0, 2
  {
    || CrashesName(st, rank, id, fields, key, probe)
    || (NameOk(st, rank, id, key) && CrashesPatterns(st, rank, id, fields, key, probe))
  }

  ghost predicate CrashesKeys(st: Store, rank: seq<nat>, id: nat, fields: seq<Binding>, probe: bool)
    requires Ranked(st, rank) && id < |st| && st[id].kind.Obj?
    decreases Size(Record(fields)), 0, 3
  {
    exists i :: 0 <= i < |fields| && CrashesKey(st, rank, id, fields, fields[i].key, probe)
                && forall j :: 0 <= j < i ==> MeansKey(st, rank, id, fields, fields[j].key)
  }

  ghost predicate CrashesField(st: Store, rank: seq<nat>, id: nat, fields: seq<Binding>, f: Field, probe: bool)
    requires Ranked(st, rank) && id < |st| && st[id].kind.Obj? && f in st[id].kind.fields
    decreases Size(Record(fields)), 0, 0
  {
    FieldInner(st, id, f);
    !Get(fields, f.key).Null? && Crashes(st, rank, f.schema, Get(fields, f.key), probe)
  }

  ghost predicate CrashesFields(st: Store, rank: seq<nat>, id: nat, fields: seq<Binding>, probe: bool)
    requires Ranked(st, rank) && id < |st| && st[id].kind.Obj?
    decreases Size(Record(fields)), 0, 1
  {
    var fs := st[id].kind.fields;
    exists i :: 0 <= i < |fs| && CrashesField(st, rank, id, fields, fs[i], probe)
                && forall j :: 0 <= j < i ==> MeansField(st, rank, id, fields, fs[j])
  }

  ghost predicate DependentOk(st: Store, rank: seq<nat>, id: nat, fields: seq<Binding>, i: nat)
    requires Ranked(st, rank) && id < |st| && st[id].kind.Obj? && i < |st[id].kind.opts.depSchemas|
  {
    SameHas(st, id);
    var deps := st[id].kind.opts.depSchemas;
    Present(fields, deps[i].0) ==> Holds(st, rank, id, Snds(deps)[i], Record(fields))
  }

  ghost predicate CrashesDependency(st: Store, rank: seq<nat>, id: nat, fields: seq<Binding>, i: nat, probe: bool)
    requires Ranked(st, rank) && id < |st| && st[id].kind.Obj? && i < |st[id].kind.opts.depSchemas|
    decreases Size(Record(fields)), rank[id], 1
  {
    SameHas(st, id);
    var deps := st[id].kind.opts.depSchemas;
    Present(fields, deps[i].0) && CrashesOn(st, rank, id, Snds(deps)[i], Record(fields), probe)
  }

  ghost predicate CrashesDependent(st: Store, rank: seq<nat>, id: nat, fields: seq<Binding>, probe: bool)
    requires Ranked(st, rank) && id < |st| && st[id].kind.Obj?
    decreases Size(Record(fields)), rank[id], 2
  {
    exists i :: 0 <= i < |st[id].kind.opts.depSchemas| && CrashesDependency(st, rank, id, fields, i, probe)
                && forall j :: 0 <= j < i ==> DependentOk(st, rank, id, fields, j)
  }

  ghost predicate CrashesObj(st: Store, rank: seq<nat>, id: nat, fields: seq<Binding>, probe: bool)
    requires Ranked(st, rank) && id < |st| && st[id].kind.Obj?
    decreases Size(Record(fields)), rank[id], 4
  {
    var fs := st[id].kind.fields; var o := st[id].kind.opts;
    CountOk(o, |fields|) &&
    (|| CrashesKeys(st, rank, id, fields, probe)
     || (MeansKeys(st, rank, id, fields) &&
         (|| CrashesFields(st, rank, id, fields, probe)
          || (MeansFields(st, rank, id, fields) && AllDeclared(fs, o.strict, fields)
              && Companions(o.depRequired, fields)
              && CrashesDependent(st, rank, id, fields, probe)))))
  }

  ghost predicate CrashesSome(st: Store, rank: seq<nat>, id: nat, ss: seq<nat>, v: Value)
    requires Ranked(st, rank) && id < |st| && forall k :: 0 <= k < |ss| ==> ss[k] in Same(st[id])
    decreases Size(v), rank[id], 1
  {
    exists i :: 0 <= i < |ss| && CrashesOn(st, rank, id, ss[i], v, true)
  }

  ghost predicate CrashesAll(st: Store, rank: seq<nat>, id: nat, ss: seq<nat>, v: Value, probe: bool)
    requires Ranked(st, rank) && id < |st| && forall k :: 0 <= k < |ss| ==> ss[k] in Same(st[id])
    decreases Size(v), rank[id], 1
  {
    exists i :: 0 <= i < |ss| && CrashesOn(st, rank, id, ss[i], v, probe)
                && forall j :: 0 <= j < i ==> Holds(st, rank, id, ss[j], v)
  }

  ghost predicate CrashesMixed(st: Store, rank: seq<nat>, id: nat, v: Value, probe: bool)
    requires Ranked(st, rank) && id < |st|
    requires var k := st[id].kind; k.If? || k.AnyOf? || k.OneOf? || k.AllOf? || k.Not? || k.Ref?
    decreases Size(v), rank[id], 2
  {
    SameHas(st, id);
    match st[id].kind {
      case If(c, t, e) =>
        || (c.Some? && CrashesOn(st, rank, id, c.value, v, true))
        || if c.Some? && Holds(st, rank, id, c.value, v) then t.Some? && CrashesOn(st, rank, id, t.value, v, probe)
           else e.Some? && CrashesOn(st, rank, id, e.value, v, probe)
      case AnyOf(ss) => CrashesSome(st, rank, id, ss, v)
      case OneOf(ss) => CrashesSome(st, rank, id, ss, v)
      case AllOf(ss) => CrashesAll(st, rank, id, ss, v, probe)
      case Not(s) => s.Some? && CrashesOn(st, rank, id, s.value, v, true)
      case Ref(s) => s.Some? && CrashesOn(st, rank, id, s.value, v, probe)
    }
  }

  ghost predicate CrashesHere(st: Store, rank: seq<nat>, id: nat, v: Value, probe: bool)
    requires Ranked(st, rank) && id < |st|
    decreases Size(v), rank[id], 5
  {
    var k := st[id].kind;
    if k.Leaf? then false
    else if k.Arr? || k.ArrLen? || k.ArrUnique? || k.ArrContains? then v.List?
        && CrashesArr(st, rank, id, v.items, probe)
    else if k.Tuple? then v.List? && CrashesTuple(st, rank, id, v.items, probe)
    else if k.Obj? then v.Record? && CrashesObj(st, rank, id, v.fields, probe)
    else CrashesMixed(st, rank, id, v, probe)
  }

  // ----------------------------------------------------- the first bad outcome

  /** Some part is bad and everything before it is good. */
  ghost predicate FirstBad(bad: seq<bool>, good: seq<bool>)
    requires |bad| == |good|
  {
    exists i :: 0 <= i < |bad| && bad[i] && forall j :: 0 <= j < i ==> good[j]
  }

  lemma FirstBadCons(bad: seq<bool>, good: seq<bool>)
    requires |bad| == |good| > 0
    ensures FirstBad(bad, good) <==> bad[0] || (good[0] && FirstBad(bad[1..], good[1..]))
  {
    if good[0] && FirstBad(bad[1..], good[1..]) {
      var i :| 0 <= i < |bad[1..]| && bad[1..][i] && forall j :: 0 <= j < i ==> good[1..][j];
      assert bad[i + 1];
      forall j | 0 <= j < i + 1 ensures good[j] { assert j > 0 ==> good[1..][j - 1]; }
    }
    if FirstBad(bad, good) && !bad[0] {
      var i :| 0 <= i < |bad| && bad[i] && forall j :: 0 <= j < i ==> good[j];
      assert bad[1..][i - 1];
      assert forall j :: 0 <= j < i - 1 ==> good[1..][j] == good[j + 1];
    }
  }

  lemma {:induction false} FirstCrash(outs: seq<Outcome>, bad: seq<bool>, good: seq<bool>)
    requires |outs| == |bad| == |good|
    requires forall i :: 0 <= i < |outs| ==> Tells(outs[i], good[i]) && outs[i].Crash? == bad[i]
    ensures First(outs).Crash? <==> FirstBad(bad, good)
  {
    if outs != [] {
      assert Tells(outs[0], good[0]) && outs[0].Crash? == bad[0];
      FirstCrash(outs[1..], bad[1..], good[1..]);
      FirstBadCons(bad, good);
    }
  }

  // ------------------------------------------------------------------ the main theorem

  /** Validation crashes exactly where the meaning of the schemas says it does. */
  lemma CrashesExactly(st: Store, rank: seq<nat>, id: nat, v: Value, probe: bool)
    requires Ranked(st, rank) && id < |st|
    ensures Validate(st, rank, id, v, probe).Crash? <==> Crashes(st, rank, id, v, probe)
    decreases Size(v), rank[id], 6
  {
    CrashCheck(st, rank, id, v, probe);
    var p := st[id].parent;
    if p.Some? && !IsBase(st[id].kind) {
      RankFalls(st, rank, id, p.value);
      CrashesExactly(st, rank, p.value, v, probe);
      Conforms(st, rank, p.value, v, probe);
    }
  }

  lemma CrashElements(st: Store, rank: seq<nat>, elem: nat, items: seq<Value>, probe: bool)
    requires Ranked(st, rank) && elem < |st|
    ensures forall i :: 0 <= i < |items| ==>
              (Elements(st, rank, elem, items, probe)[i].Crash? <==> Crashes(st, rank, elem, items[i], probe))
    decreases 1 + SizeItems(items), 0, 0
  {
    forall i | 0 <= i < |items|
      ensures Elements(st, rank, elem, items, probe)[i].Crash? <==> Crashes(st, rank, elem, items[i], probe)
    {
      CrashesExactly(st, rank, elem, items[i], probe);
    }
  }

  lemma BadIn(st: Store, rank: seq<nat>, elem: nat, n: nat, items: seq<Value>, probe: bool, bad: seq<bool>,
      good: seq<bool>)
    requires Ranked(st, rank) && elem < |st| && n <= |items| && |bad| == |good| == |items| - n
    requires forall i :: 0 <= i < |bad| ==> bad[i] == Crashes(st, rank, elem, items[n + i], probe)
    requires forall i :: 0 <= i < |bad| ==> good[i] == Sat(st, rank, elem, items[n + i])
    ensures FirstBad(bad, good) <==> CrashesIn(st, rank, elem, n, items, probe)
  {
    if FirstBad(bad, good) {
      var i :| 0 <= i < |bad| && bad[i] && forall j :: 0 <= j < i ==> good[j];
      forall j | n <= j < n + i ensures Sat(st, rank, elem, items[j]) { assert good[j - n]; }
      assert SatTo(st, rank, elem, n, n + i, items);
    }
    if i :| n <= i < |items| && Crashes(st, rank, elem, items[i], probe) && SatTo(st, rank, elem, n, i, items) {
      assert bad[i - n];
    }
  }

  lemma CrashFrom(st: Store, rank: seq<nat>, elem: nat, n: nat, items: seq<Value>, probe: bool)
    requires Ranked(st, rank) && elem < |st| && n <= |items|
    ensures First(Elements(st, rank, elem, items, probe)[n..]).Crash? <==> CrashesIn(st, rank, elem, n, items, probe)
    decreases 1 + SizeItems(items), 0, 1
  {
    var all := Elements(st, rank, elem, items, probe); var outs := all[n..];
    var bad := seq(|items| - n, i requires 0 <= i < |items| - n => Crashes(st, rank, elem, items[n + i], probe));
    var good := seq(|items| - n, i requires 0 <= i < |items| - n => Sat(st, rank, elem, items[n + i]));
    forall i | 0 <= i < |outs| ensures Tells(outs[i], good[i]) && outs[i].Crash? == bad[i] {
      assert outs[i] == all[n + i];
      Conforms(st, rank, elem, items[n + i], probe);
      CrashesExactly(st, rank, elem, items[n + i], probe);
    }
    FirstCrash(outs, bad, good);
    BadIn(st, rank, elem, n, items, probe, bad, good);
  }

  lemma CrashEach(st: Store, rank: seq<nat>, id: nat, ids: seq<nat>, v: Value, probe: bool)
    requires Ranked(st, rank) && id < |st| && forall k :: 0 <= k < |ids| ==> ids[k] in Same(st[id])
    ensures forall i :: 0 <= i < |ids| ==>
              (Each(st, rank, id, ids, v, probe)[i].Crash? <==> CrashesOn(st, rank, id, ids[i], v, probe))
    decreases Size(v), rank[id], 0
  {
    forall i | 0 <= i < |ids|
      ensures Each(st, rank, id, ids, v, probe)[i].Crash? <==> CrashesOn(st, rank, id, ids[i], v, probe)
    {
      RankFalls(st, rank, id, ids[i]);
      CrashesExactly(st, rank, ids[i], v, probe);
    }
  }

  lemma CrashArr(st: Store, rank: seq<nat>, id: nat, items: seq<Value>, probe: bool)
    requires Ranked(st, rank) && id < |st|
    requires var k := st[id].kind; k.Arr? || k.ArrLen? || k.ArrUnique? || k.ArrContains?
    ensures CheckArr(st, rank, id, items, probe).Crash? <==> CrashesArr(st, rank, id, items, probe)
    decreases Size(List(items)), rank[id], 2
  {
    InnerHas(st, id);
    var k := st[id].kind; var outs := Elements(st, rank, k.elem, items, probe);
    CrashFrom(st, rank, k.elem, 0, items, probe);
    assert outs[0..] == outs;
    ConformsElements(st, rank, k.elem, items, probe);
    if k.ArrContains? {
      CrashElements(st, rank, k.contains, items, true);
      var probes := Elements(st, rank, k.contains, items, true);
      assert AnyCrash(probes) <==> exists i :: 0 <= i < |items| && Crashes(st, rank, k.contains, items[i], true);
    }
  }

  lemma CrashPositional(st: Store, rank: seq<nat>, p: seq<nat>, items: seq<Value>, probe: bool)
    requires Ranked(st, rank) && forall i :: 0 <= i < |p| ==> p[i] < |st|
    ensures First(Positional(st, rank, p, items, probe)).Crash? <==> CrashesPositional(st, rank, p, items, probe)
    decreases 1 + SizeItems(items), 0, 1
  {
    var outs := Positional(st, rank, p, items, probe);
    var bad := seq(|p|, i requires 0 <= i < |p| => CrashesPosition(st, rank, p, i, items, probe));
    var good := seq(|p|, i requires 0 <= i < |p| => i < |items| && Sat(st, rank, p[i], items[i]));
    forall i | 0 <= i < |p| ensures Tells(outs[i], good[i]) && outs[i].Crash? == bad[i] {
      if i < |items| {
        Conforms(st, rank, p[i], items[i], probe);
        CrashesExactly(st, rank, p[i], items[i], probe);
      }
    }
    FirstCrash(outs, bad, good);
    if FirstBad(bad, good) {
      var i :| 0 <= i < |bad| && bad[i] && forall j :: 0 <= j < i ==> good[j];
      assert i > 0 ==> good[i - 1];
      forall j | 0 <= j < i ensures Sat(st, rank, p[j], items[j]) { assert good[j]; }
      assert SatPrefix(st, rank, p, i, items);
    }
    if CrashesPositional(st, rank, p, items, probe) {
      var i :| 0 <= i < |p| && CrashesPosition(st, rank, p, i, items, probe) && SatPrefix(st, rank, p, i, items);
      assert bad[i];
    }
  }

  lemma CrashTuple(st: Store, rank: seq<nat>, id: nat, items: seq<Value>, probe: bool)
    requires Ranked(st, rank) && id < |st| && st[id].kind.Tuple?
    ensures CheckTuple(st, rank, id, items, probe).Crash? <==> CrashesTuple(st, rank, id, items, probe)
    decreases Size(List(items)), rank[id], 2
  {
    InnerHas(st, id);
    var p := st[id].kind.prefix; var x := st[id].kind.extra;
    CrashPositional(st, rank, p, items, probe);
    ConformsPositional(st, rank, p, items, probe);
    if |items| > |p| && x.Some? { CrashFrom(st, rank, x.value, |p|, items, probe); }
  }

  lemma BadPattern(st: Store, rank: seq<nat>, id: nat, fields: seq<Binding>, key: string, probe: bool, bad: seq<bool>,
      good: seq<bool>)
    requires Ranked(st, rank) && id < |st| && st[id].kind.Obj? && |bad| == |good| == |st[id].kind.opts.patterns|
    requires forall j :: 0 <= j < |bad| ==> bad[j] == CrashesPattern(st, rank, id, fields, key, j, probe)
    requires forall j :: 0 <= j < |bad| ==> good[j] == PatternOk(st, rank, id, fields, key, j)
    ensures FirstBad(bad, good) <==> CrashesPatterns(st, rank, id, fields, key, probe)
  {
    if FirstBad(bad, good) {
      var j :| 0 <= j < |bad| && bad[j] && forall i :: 0 <= i < j ==> good[i];
      forall i | 0 <= i < j ensures PatternOk(st, rank, id, fields, key, i) { assert good[i]; }
    }
    if j :| 0 <= j < |st[id].kind.opts.patterns| && CrashesPattern(st, rank, id, fields, key, j, probe)
            && forall i :: 0 <= i < j ==> PatternOk(st, rank, id, fields, key, i)
    {
      assert bad[j];
    }
  }

  lemma CrashPatterns(st: Store, rank: seq<nat>, id: nat, fields: seq<Binding>, key: string, probe: bool)
    requires Ranked(st, rank) && id < |st| && st[id].kind.Obj?
    ensures First(KeyOuts(st, rank, id, fields, key, probe)[1..]).Crash?
            <==> CrashesPatterns(st, rank, id, fields, key, probe)
    decreases Size(Record(fields)), 0, 1
  {
    InnerHas(st, id);
    var o := st[id].kind.opts; var n := |o.patterns|; var outs := KeyOuts(st, rank, id, fields, key, probe)[1..];
    var bad := seq(n, j requires 0 <= j < n => CrashesPattern(st, rank, id, fields, key, j, probe));
    var good := seq(n, j requires 0 <= j < n => PatternOk(st, rank, id, fields, key, j));
    forall j | 0 <= j < n ensures Tells(outs[j], good[j]) && outs[j].Crash? == bad[j] {
      if o.patterns[j].0(key) {
        Conforms(st, rank, o.patterns[j].1, Get(fields, key), probe);
        CrashesExactly(st, rank, o.patterns[j].1, Get(fields, key), probe);
      }
    }
    FirstCrash(outs, bad, good);
    BadPattern(st, rank, id, fields, key, probe, bad, good);
  }

  lemma CrashKey(st: Store, rank: seq<nat>, id: nat, fields: seq<Binding>, key: string, probe: bool)
    requires Ranked(st, rank) && id < |st| && st[id].kind.Obj?
    ensures First(KeyOuts(st, rank, id, fields, key, probe)).Crash? <==> CrashesKey(st, rank, id, fields, key, probe)
    decreases Size(Record(fields)), 0, 2
  {
    InnerHas(st, id);
    var o := st[id].kind.opts;
    if o.propertyNames.Some? {
      Conforms(st, rank, o.propertyNames.value, Text(key), probe);
      CrashesExactly(st, rank, o.propertyNames.value, Text(key), probe);
    }
    CrashPatterns(st, rank, id, fields, key, probe);
  }

  lemma CrashKeys(st: Store, rank: seq<nat>, id: nat, fields: seq<Binding>, probe: bool)
    requires Ranked(st, rank) && id < |st| && st[id].kind.Obj?
    ensures KeysOut(st, rank, id, fields, probe).Crash? <==> CrashesKeys(st, rank, id, fields, probe)
    decreases Size(Record(fields)), 0, 3
  {
    var n := |fields|;
    var outs := seq(n, i requires 0 <= i < n => First(KeyOuts(st, rank, id, fields, fields[i].key, probe)));
    var bad := seq(n, i requires 0 <= i < n => CrashesKey(st, rank, id, fields, fields[i].key, probe));
    var good := seq(n, i requires 0 <= i < n => MeansKey(st, rank, id, fields, fields[i].key));
    forall i | 0 <= i < n ensures Tells(outs[i], good[i]) && outs[i].Crash? == bad[i] {
      ConformsKey(st, rank, id, fields, fields[i].key, probe);
      CrashKey(st, rank, id, fields, fields[i].key, probe);
    }
    FirstCrash(outs, bad, good);
    if FirstBad(bad, good) {
      var i :| 0 <= i < |bad| && bad[i] && forall j :: 0 <= j < i ==> good[j];
      forall j | 0 <= j < i ensures MeansKey(st, rank, id, fields, fields[j].key) { assert good[j]; }
    }
    if CrashesKeys(st, rank, id, fields, probe) {
      var i :| 0 <= i < n && CrashesKey(st, rank, id, fields, fields[i].key, probe)
               && forall j :: 0 <= j < i ==> MeansKey(st, rank, id, fields, fields[j].key);
      assert bad[i];
    }
  }

  lemma CrashFields(st: Store, rank: seq<nat>, id: nat, fields: seq<Binding>, probe: bool)
    requires Ranked(st, rank) && id < |st| && st[id].kind.Obj?
    ensures FieldsOut(st, rank, id, fields, probe).Crash? <==> CrashesFields(st, rank, id, fields, probe)
    decreases Size(Record(fields)), 0, 1
  {
    var fs := st[id].kind.fields; var n := |fs|;
    var outs := seq(n, i requires 0 <= i < n => FieldOut(st, rank, id, fields, fs[i], probe));
    var bad := seq(n, i requires 0 <= i < n => CrashesField(st, rank, id, fields, fs[i], probe));
    var good := seq(n, i requires 0 <= i < n => MeansField(st, rank, id, fields, fs[i]));
    forall i | 0 <= i < n ensures Tells(outs[i], good[i]) && outs[i].Crash? == bad[i] {
      ConformsField(st, rank, id, fields, fs[i], probe);
      FieldInner(st, id, fs[i]);
      if !Get(fields, fs[i].key).Null? { CrashesExactly(st, rank, fs[i].schema, Get(fields, fs[i].key), probe); }
    }
    FirstCrash(outs, bad, good);
    if FirstBad(bad, good) {
      var i :| 0 <= i < |bad| && bad[i] && forall j :: 0 <= j < i ==> good[j];
      forall j | 0 <= j < i ensures MeansField(st, rank, id, fields, fs[j]) { assert good[j]; }
    }
    if CrashesFields(st, rank, id, fields, probe) {
      var i :| 0 <= i < n && CrashesField(st, rank, id, fields, fs[i], probe)
               && forall j :: 0 <= j < i ==> MeansField(st, rank, id, fields, fs[j]);
      assert bad[i];
    }
  }

  lemma BadDependent(st: Store, rank: seq<nat>, id: nat, fields: seq<Binding>, probe: bool, bad: seq<bool>,
      good: seq<bool>)
    requires Ranked(st, rank) && id < |st| && st[id].kind.Obj? && |bad| == |good| == |st[id].kind.opts.depSchemas|
    requires forall i :: 0 <= i < |bad| ==> bad[i] == CrashesDependency(st, rank, id, fields, i, probe)
    requires forall i :: 0 <= i < |bad| ==> good[i] == DependentOk(st, rank, id, fields, i)
    ensures FirstBad(bad, good) <==> CrashesDependent(st, rank, id, fields, probe)
  {
    if FirstBad(bad, good) {
      var i :| 0 <= i < |bad| && bad[i] && forall j :: 0 <= j < i ==> good[j];
      forall j | 0 <= j < i ensures DependentOk(st, rank, id, fields, j) { assert good[j]; }
    }
    if i :| 0 <= i < |st[id].kind.opts.depSchemas| && CrashesDependency(st, rank, id, fields, i, probe)
            && forall j :: 0 <= j < i ==> DependentOk(st, rank, id, fields, j)
    {
      assert bad[i];
    }
  }

  lemma CrashDependent(st: Store, rank: seq<nat>, id: nat, fields: seq<Binding>, probe: bool)
    requires Ranked(st, rank) && id < |st| && st[id].kind.Obj?
    ensures DependentOut(st, rank, id, fields, probe).Crash? <==> CrashesDependent(st, rank, id, fields, probe)
    decreases Size(Record(fields)), rank[id], 2
  {
    SameHas(st, id);
    var deps := st[id].kind.opts.depSchemas; var n := |deps|; var v := Record(fields);
    ConformsEach(st, rank, id, Snds(deps), v, probe);
    CrashEach(st, rank, id, Snds(deps), v, probe);
    var each := Each(st, rank, id, Snds(deps), v, probe);
    var outs := seq(n, i requires 0 <= i < n => if Present(fields, deps[i].0) then each[i] else Accept);
    var bad := seq(n, i requires 0 <= i < n => CrashesDependency(st, rank, id, fields, i, probe));
    var good := seq(n, i requires 0 <= i < n => DependentOk(st, rank, id, fields, i));
    FirstCrash(outs, bad, good);
    BadDependent(st, rank, id, fields, probe, bad, good);
  }

  lemma NeverCrashes(outs: seq<Outcome>)
    requires forall i :: 0 <= i < |outs| ==> !outs[i].Crash?
    ensures !First(outs).Crash?
  {
    if outs != [] {
      assert forall i :: 0 <= i < |outs[1..]| ==> outs[1..][i] == outs[i + 1];
      NeverCrashes(outs[1..]);
    }
  }

  lemma StrictNeverCrashes(fs: seq<Field>, strict: bool, fields: seq<Binding>, probe: bool)
    ensures !StrictOut(fs, strict, fields, probe).Crash?
  {
    NeverCrashes(seq(|fields|, i requires 0 <= i < |fields| =>
      At(Key(fields[i].key), Demand(!strict || Declared(fs, fields[i].key)), probe)));
  }

  lemma RequiredNeverCrashes(deps: seq<(string, seq<string>)>, fields: seq<Binding>)
    ensures !RequiredOut(deps, fields).Crash?
  {
    NeverCrashes(seq(|deps|, i requires 0 <= i < |deps| =>
      Demand(Present(fields, deps[i].0) ==> AllPresent(fields, deps[i].1))));
  }

  lemma CrashObj(st: Store, rank: seq<nat>, id: nat, fields: seq<Binding>, probe: bool)
    requires Ranked(st, rank) && id < |st| && st[id].kind.Obj?
    ensures CheckObj(st, rank, id, fields, probe).Crash? <==> CrashesObj(st, rank, id, fields, probe)
    decreases Size(Record(fields)), rank[id], 4
  {
    var fs := st[id].kind.fields; var o := st[id].kind.opts;
    CrashKeys(st, rank, id, fields, probe);
    ConformsKeys(st, rank, id, fields, probe);
    CrashFields(st, rank, id, fields, probe);
    ConformsFields(st, rank, id, fields, probe);
    StrictNeverCrashes(fs, o.strict, fields, probe);
    ConformsStrict(fs, o.strict, fields, probe);
    RequiredNeverCrashes(o.depRequired, fields);
    ConformsRequired(o.depRequired, fields);
    CrashDependent(st, rank, id, fields, probe);
    SixFirst(Demand(CountOk(o, |fields|)), KeysOut(st, rank, id, fields, probe), FieldsOut(st, rank, id, fields, probe),
             StrictOut(fs, o.strict, fields, probe), RequiredOut(o.depRequired, fields),
             DependentOut(st, rank, id, fields, probe));
  }

  lemma SixFirst(o0: Outcome, o1: Outcome, o2: Outcome, o3: Outcome, o4: Outcome, o5: Outcome)
    ensures First([o0, o1, o2, o3, o4, o5]) ==
              if o0 != Accept then o0 else if o1 != Accept then o1 else if o2 != Accept then o2
              else if o3 != Accept then o3 else if o4 != Accept then o4 else o5
  {
    FirstCons(o0, [o1, o2, o3, o4, o5]);
    FirstCons(o1, [o2, o3, o4, o5]);
    FirstCons(o2, [o3, o4, o5]);
    FirstCons(o3, [o4, o5]);
    FirstCons(o4, [o5]);
    FirstCons(o5, []);
    assert [o0] + [o1, o2, o3, o4, o5] == [o0, o1, o2, o3, o4, o5] && [o1] + [o2, o3, o4, o5] == [o1, o2, o3, o4, o5];
    assert [o2] + [o3, o4, o5] == [o2, o3, o4, o5] && [o3] + [o4, o5] == [o3, o4, o5] && [o4] + [o5] == [o4, o5];
    assert [o5] + [] == [o5];
  }

  lemma FirstCons(o: Outcome, rest: seq<Outcome>)
    ensures First([o] + rest) == if o != Accept then o else First(rest)
  {
    assert ([o] + rest)[1..] == rest;
  }

  lemma CrashOne(st: Store, rank: seq<nat>, id: nat, j: nat, v: Value, probe: bool)
    requires Ranked(st, rank) && id < |st| && j in Same(st[id])
    ensures Each(st, rank, id, [j], v, probe)[0].Crash? <==> CrashesOn(st, rank, id, j, v, probe)
    ensures Tells(Each(st, rank, id, [j], v, probe)[0], Holds(st, rank, id, j, v))
    decreases Size(v), rank[id], 1
  {
    CrashEach(st, rank, id, [j], v, probe);
    ConformsOne(st, rank, id, j, v, probe);
    assert [j][0] == j;
  }

  lemma CrashSome(st: Store, rank: seq<nat>, id: nat, ss: seq<nat>, v: Value)
    requires Ranked(st, rank) && id < |st| && forall k :: 0 <= k < |ss| ==> ss[k] in Same(st[id])
    ensures AnyCrash(Each(st, rank, id, ss, v, true)) <==> CrashesSome(st, rank, id, ss, v)
    decreases Size(v), rank[id], 1
  {
    CrashEach(st, rank, id, ss, v, true);
    var outs := Each(st, rank, id, ss, v, true);
    if AnyCrash(outs) {
      var i :| 0 <= i < |outs| && outs[i].Crash?;
      assert CrashesOn(st, rank, id, ss[i], v, true);
    }
  }

  lemma BadAll(st: Store, rank: seq<nat>, id: nat, ss: seq<nat>, v: Value, probe: bool, bad: seq<bool>, good: seq<bool>)
    requires Ranked(st, rank) && id < |st| && (forall k :: 0 <= k < |ss| ==> ss[k] in Same(st[id]))
             && |bad| == |good| == |ss|
    requires forall i :: 0 <= i < |bad| ==> bad[i] == CrashesOn(st, rank, id, ss[i], v, probe)
    requires forall i :: 0 <= i < |bad| ==> good[i] == Holds(st, rank, id, ss[i], v)
    ensures FirstBad(bad, good) <==> CrashesAll(st, rank, id, ss, v, probe)
  {
    if FirstBad(bad, good) {
      var i :| 0 <= i < |bad| && bad[i] && forall j :: 0 <= j < i ==> good[j];
      forall j | 0 <= j < i ensures Holds(st, rank, id, ss[j], v) { assert good[j]; }
    }
    if i :| 0 <= i < |ss| && CrashesOn(st, rank, id, ss[i], v, probe) && forall j :: 0 <= j < i ==>
          Holds(st, rank, id, ss[j], v) {
      assert bad[i];
    }
  }

  lemma CrashAll(st: Store, rank: seq<nat>, id: nat, ss: seq<nat>, v: Value, probe: bool)
    requires Ranked(st, rank) && id < |st| && forall k :: 0 <= k < |ss| ==> ss[k] in Same(st[id])
    ensures First(Each(st, rank, id, ss, v, probe)).Crash? <==> CrashesAll(st, rank, id, ss, v, probe)
    decreases Size(v), rank[id], 1
  {
    ConformsEach(st, rank, id, ss, v, probe);
    CrashEach(st, rank, id, ss, v, probe);
    var n := |ss|;
    var bad := seq(n, i requires 0 <= i < n => CrashesOn(st, rank, id, ss[i], v, probe));
    var good := seq(n, i requires 0 <= i < n => Holds(st, rank, id, ss[i], v));
    FirstCrash(Each(st, rank, id, ss, v, probe), bad, good);
    BadAll(st, rank, id, ss, v, probe, bad, good);
  }

  lemma CrashIf(st: Store, rank: seq<nat>, id: nat, v: Value, probe: bool)
    requires Ranked(st, rank) && id < |st| && st[id].kind.If?
    ensures CheckMixed(st, rank, id, v, probe).Crash? <==> CrashesMixed(st, rank, id, v, probe)
    decreases Size(v), rank[id], 2
  {
    SameHas(st, id);
    var k := st[id].kind;
    if k.cond.Some? { CrashOne(st, rank, id, k.cond.value, v, true); }
    if k.then_.Some? { CrashOne(st, rank, id, k.then_.value, v, probe); }
    if k.else_.Some? { CrashOne(st, rank, id, k.else_.value, v, probe); }
  }

  lemma CrashMixed(st: Store, rank: seq<nat>, id: nat, v: Value, probe: bool)
    requires Ranked(st, rank) && id < |st|
    requires var k := st[id].kind; k.If? || k.AnyOf? || k.OneOf? || k.AllOf? || k.Not? || k.Ref?
    ensures CheckMixed(st, rank, id, v, probe).Crash? <==> CrashesMixed(st, rank, id, v, probe)
    decreases Size(v), rank[id], 3
  {
    SameHas(st, id);
    match st[id].kind {
      case If(_, _, _) => CrashIf(st, rank, id, v, probe);
      case AnyOf(ss) => CrashSome(st, rank, id, ss, v);
      case OneOf(ss) => CrashSome(st, rank, id, ss, v);
      case AllOf(ss) => CrashAll(st, rank, id, ss, v, probe);
      case Not(s) => if s.Some? { CrashOne(st, rank, id, s.value, v, true); }
      case Ref(s) => if s.Some? { CrashOne(st, rank, id, s.value, v, probe); }
    }
  }

  lemma CrashCheck(st: Store, rank: seq<nat>, id: nat, v: Value, probe: bool)
    requires Ranked(st, rank) && id < |st|
    ensures Check(st, rank, id, v, probe).Crash? <==> CrashesHere(st, rank, id, v, probe)
    decreases Size(v), rank[id], 5
  {
    var k := st[id].kind;
    if k.Leaf? {
    } else if k.Arr? || k.ArrLen? || k.ArrUnique? || k.ArrContains? {
      if v.List? { CrashArr(st, rank, id, v.items, probe); }
    } else if k.Tuple? {
      if v.List? { CrashTuple(st, rank, id, v.items, probe); }
    } else if k.Obj? {
      if v.Record? { CrashObj(st, rank, id, v.fields, probe); }
    } else {
      CrashMixed(st, rank, id, v, probe);
    }
  }

  /** The whole verdict, in terms of the meaning alone. */
  lemma ExactVerdict(st: Store, rank: seq<nat>, id: nat, v: Value, probe: bool)
    requires Ranked(st, rank) && id < |st|
    ensures Validate(st, rank, id, v, probe).Crash? <==> Crashes(st, rank, id, v, probe)
    ensures Validate(st, rank, id, v, probe).Accept? <==> !Crashes(st, rank, id, v, probe) && Sat(st, rank, id, v)
    ensures Validate(st, rank, id, v, probe).Reject? <==> !Crashes(st, rank, id, v, probe) && !Sat(st, rank, id, v)
  {
    CrashesExactly(st, rank, id, v, probe);
    Conforms(st, rank, id, v, probe);
  }
}
