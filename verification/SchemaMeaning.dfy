/** What a schema means, and that validation computes it. */
module SchemaMeaning {
  import opened Schema

  // ----------------------------------------------------------------- meaning

  /** A value satisfies a schema when it satisfies the parent (of a kind that has one to
      honour) and what the node itself says. */
  ghost predicate Sat(st: Store, rank: seq<nat>, id: nat, v: Value)
    requires Ranked(st, rank) && id < |st|
    decreases Size(v), rank[id], 5
  {
    var p := st[id].parent;
    Means(st, rank, id, v) &&
    if p.None? || IsBase(st[id].kind) then true else RankFalls(st, rank, id, p.value); Sat(st, rank, p.value, v)
  }

  ghost predicate AllSat(st: Store, rank: seq<nat>, elem: nat, items: seq<Value>)
    requires Ranked(st, rank) && elem < |st|
    decreases 1 + SizeItems(items), 0, 0
  {
    forall i :: 0 <= i < |items| ==> Sat(st, rank, elem, items[i])
  }

  /** The positions of the elements that satisfy a schema. */
  ghost function Matches(st: Store, rank: seq<nat>, elem: nat, items: seq<Value>): set<nat>
    requires Ranked(st, rank) && elem < |st|
    decreases 1 + SizeItems(items), 0, 0
  {
    set i: nat | i < |items| && Sat(st, rank, elem, items[i])
  }

  /** A same-value reference holds. */
  ghost predicate Holds(st: Store, rank: seq<nat>, id: nat, j: nat, v: Value)
    requires Ranked(st, rank) && id < |st| && j in Same(st[id])
    decreases Size(v), rank[id], 0
  {
    RankFalls(st, rank, id, j);
    Sat(st, rank, j, v)
  }

  /** The i-th schema holds and no other does. */
  ghost predicate OnlyHolder(st: Store, rank: seq<nat>, id: nat, ss: seq<nat>, v: Value, i: nat)
    requires Ranked(st, rank) && id < |st| && i < |ss| && forall k :: 0 <= k < |ss| ==> ss[k] in Same(st[id])
    decreases Size(v), rank[id], 1
  {
    Holds(st, rank, id, ss[i], v) && forall j :: 0 <= j < |ss| && j != i ==> !Holds(st, rank, id, ss[j], v)
  }

  ghost predicate SomeHolds(st: Store, rank: seq<nat>, id: nat, ss: seq<nat>, v: Value)
    requires Ranked(st, rank) && id < |st| && forall k :: 0 <= k < |ss| ==> ss[k] in Same(st[id])
    decreases Size(v), rank[id], 1
  {
    exists i :: 0 <= i < |ss| && Holds(st, rank, id, ss[i], v)
  }

  ghost predicate OneHolds(st: Store, rank: seq<nat>, id: nat, ss: seq<nat>, v: Value)
    requires Ranked(st, rank) && id < |st| && forall k :: 0 <= k < |ss| ==> ss[k] in Same(st[id])
    decreases Size(v), rank[id], 2
  {
    exists i :: 0 <= i < |ss| && OnlyHolder(st, rank, id, ss, v, i)
  }

  /** From position n on every element satisfies the schema. */
  ghost predicate SatFrom(st: Store, rank: seq<nat>, x: nat, n: nat, items: seq<Value>)
    requires Ranked(st, rank) && x < |st|
    decreases 1 + SizeItems(items), 0, 0
  {
    forall i :: n <= i < |items| ==> Sat(st, rank, x, items[i])
  }

  ghost predicate MeansArr(st: Store, rank: seq<nat>, id: nat, items: seq<Value>)
    requires Ranked(st, rank) && id < |st|
    requires var k := st[id].kind; k.Arr? || k.ArrLen? || k.ArrUnique? || k.ArrContains?
    decreases Size(List(items)), rank[id], 1
  {
    InnerHas(st, id);
    var k := st[id].kind;
    && AllSat(st, rank, k.elem, items)
    && (k.ArrLen? ==> k.min <= |items| <= k.max)
    && (k.ArrUnique? ==> forall i, j :: 0 <= i < j < |items| ==> !k.same(items[i], items[j]))
    && (k.ArrContains? ==>
          var m := Matches(st, rank, k.contains, items);
          k.minContains <= |m| && (k.maxContains != 0 ==> |m| <= k.maxContains))
  }

  ghost predicate MeansTuple(st: Store, rank: seq<nat>, id: nat, items: seq<Value>)
    requires Ranked(st, rank) && id < |st| && st[id].kind.Tuple?
    decreases Size(List(items)), rank[id], 1
  {
    InnerHas(st, id);
    var p := st[id].kind.prefix; var x := st[id].kind.extra;
    && |p| <= |items|
    && (forall i :: 0 <= i < |p| ==> Sat(st, rank, p[i], items[i]))
    && (|items| > |p| ==> x.Some? && SatFrom(st, rank, x.value, |p|, items))
  }

  ghost predicate MeansKey(st: Store, rank: seq<nat>, id: nat, fields: seq<Binding>, key: string)
    requires Ranked(st, rank) && id < |st| && st[id].kind.Obj?
    decreases Size(Record(fields)), 0, 0
  {
    InnerHas(st, id);
    var o := st[id].kind.opts;
    && (o.propertyNames.Some? ==> Sat(st, rank, o.propertyNames.value, Text(key)))
    && (forall j :: 0 <= j < |o.patterns| && o.patterns[j].0(key) ==> Sat(st, rank, o.patterns[j].1, Get(fields, key)))
  }

  ghost predicate MeansField(st: Store, rank: seq<nat>, id: nat, fields: seq<Binding>, f: Field)
    requires Ranked(st, rank) && id < |st| && st[id].kind.Obj? && f in st[id].kind.fields
    decreases Size(Record(fields)), 0, 0
  {
    FieldInner(st, id, f);
    if Get(fields, f.key).Null? then f.optional else Sat(st, rank, f.schema, Get(fields, f.key))
  }

  ghost predicate MeansKeys(st: Store, rank: seq<nat>, id: nat, fields: seq<Binding>)
    requires Ranked(st, rank) && id < |st| && st[id].kind.Obj?
    decreases Size(Record(fields)), 0, 1
  {
    forall i :: 0 <= i < |fields| ==> MeansKey(st, rank, id, fields, fields[i].key)
  }

  ghost predicate MeansFields(st: Store, rank: seq<nat>, id: nat, fields: seq<Binding>)
    requires Ranked(st, rank) && id < |st| && st[id].kind.Obj?
    decreases Size(Record(fields)), 0, 1
  {
    forall i :: 0 <= i < |st[id].kind.fields| ==> MeansField(st, rank, id, fields, st[id].kind.fields[i])
  }

  ghost predicate AllDeclared(fs: seq<Field>, strict: bool, fields: seq<Binding>) {
    strict ==> forall i :: 0 <= i < |fields| ==> Declared(fs, fields[i].key)
  }

  ghost predicate Companions(deps: seq<(string, seq<string>)>, fields: seq<Binding>) {
    forall i :: 0 <= i < |deps| && Present(fields, deps[i].0) ==> AllPresent(fields, deps[i].1)
  }

  ghost predicate MeansDependent(st: Store, rank: seq<nat>, id: nat, fields: seq<Binding>)
    requires Ranked(st, rank) && id < |st| && st[id].kind.Obj?
    decreases Size(Record(fields)), rank[id], 1
  {
    SameHas(st, id);
    var deps := st[id].kind.opts.depSchemas;
    forall i :: 0 <= i < |deps| && Present(fields, deps[i].0) ==> Holds(st, rank, id, Snds(deps)[i], Record(fields))
  }

  ghost predicate MeansObj(st: Store, rank: seq<nat>, id: nat, fields: seq<Binding>)
    requires Ranked(st, rank) && id < |st| && st[id].kind.Obj?
    decreases Size(Record(fields)), rank[id], 2
  {
    var fs := st[id].kind.fields; var o := st[id].kind.opts;
    && CountOk(o, |fields|)
    && MeansKeys(st, rank, id, fields) && MeansFields(st, rank, id, fields)
    && AllDeclared(fs, o.strict, fields) && Companions(o.depRequired, fields)
    && MeansDependent(st, rank, id, fields)
  }

  ghost predicate MeansMixed(st: Store, rank: seq<nat>, id: nat, v: Value)
    requires Ranked(st, rank) && id < |st|
    requires var k := st[id].kind; k.If? || k.AnyOf? || k.OneOf? || k.AllOf? || k.Not? || k.Ref?
    decreases Size(v), rank[id], 3
  {
    SameHas(st, id);
    match st[id].kind {
      case If(c, t, e) =>
        if c.Some? && Holds(st, rank, id, c.value, v) then t.Some? ==> Holds(st, rank, id, t.value, v)
        else e.Some? ==> Holds(st, rank, id, e.value, v)
      case AnyOf(ss) => SomeHolds(st, rank, id, ss, v)
      case OneOf(ss) => OneHolds(st, rank, id, ss, v)
      case AllOf(ss) => forall i :: 0 <= i < |ss| ==> Holds(st, rank, id, ss[i], v)
      case Not(s) => !(s.Some? && Holds(st, rank, id, s.value, v))
      case Ref(s) => s.Some? && Holds(st, rank, id, s.value, v)
    }
  }

  ghost predicate Means(st: Store, rank: seq<nat>, id: nat, v: Value)
    requires Ranked(st, rank) && id < |st|
    decreases Size(v), rank[id], 4
  {
    var k := st[id].kind;
    if k.Leaf? then k.test(v)
    else if k.Arr? || k.ArrLen? || k.ArrUnique? || k.ArrContains? then v.List? && MeansArr(st, rank, id, v.items)
    else if k.Tuple? then v.List? && MeansTuple(st, rank, id, v.items)
    else if k.Obj? then v.Record? && MeansObj(st, rank, id, v.fields)
    else MeansMixed(st, rank, id, v)
  }

  // -------------------------------------------------------- outcomes and truth

  /** An outcome tells the truth unless it is a crash. */
  predicate Tells(o: Outcome, truth: bool) { o.Crash? || (o.Accept? <==> truth) }

  ghost predicate All(truth: seq<bool>) { forall i :: 0 <= i < |truth| ==> truth[i] }

  lemma AllCons(truth: seq<bool>)
    requires truth != []
    ensures All(truth) <==> truth[0] && All(truth[1..])
  {
    if truth[0] && All(truth[1..]) {
      forall i | 0 <= i < |truth| ensures truth[i] { assert i > 0 ==> truth[1..][i - 1]; }
    }
  }

  /** The first of several truthful outcomes tells whether all hold. */
  lemma {:induction false} FirstTells(outs: seq<Outcome>, truth: seq<bool>)
    requires |outs| == |truth| && forall i :: 0 <= i < |outs| ==> Tells(outs[i], truth[i])
    ensures Tells(First(outs), All(truth))
  {
    if outs != [] {
      assert Tells(outs[0], truth[0]);
      FirstTells(outs[1..], truth[1..]);
      AllCons(truth);
    }
  }

  /** Truthful outcomes without a crash: as many acceptances as truths. */
  lemma {:induction false} AcceptsCount(outs: seq<Outcome>, truth: set<nat>)
    requires !AnyCrash(outs) && forall i :: 0 <= i < |outs| ==> Tells(outs[i], i in truth)
    requires forall i :: i in truth ==> i < |outs|
    ensures Accepts(outs) == |truth|
  {
    if outs == [] {
      assert truth == {};
    } else {
      var n := |outs| - 1;
      forall i | 0 <= i < n ensures Tells(outs[..n][i], i in truth - {n}) { assert Tells(outs[i], i in truth); }
      AcceptsCount(outs[..n], truth - {n});
      assert Tells(outs[n], n in truth) && !outs[n].Crash?;
      if n in truth { assert truth == (truth - {n}) + {n}; } else { assert truth == truth - {n}; }
    }
  }

  // ------------------------------------------------------------- the main theorem

  /** Unless it crashes, validation accepts a value exactly when the value satisfies the
      schema, in either mode. */
  lemma Conforms(st: Store, rank: seq<nat>, id: nat, v: Value, probe: bool)
    requires Ranked(st, rank) && id < |st|
    ensures Tells(Validate(st, rank, id, v, probe), Sat(st, rank, id, v))
    decreases Size(v), rank[id], 5
  {
    ConformsCheck(st, rank, id, v, probe);
    var p := st[id].parent;
    if p.Some? && !IsBase(st[id].kind) {
      RankFalls(st, rank, id, p.value);
      Conforms(st, rank, p.value, v, probe);
    }
  }

  lemma ConformsElements(st: Store, rank: seq<nat>, elem: nat, items: seq<Value>, probe: bool)
    requires Ranked(st, rank) && elem < |st|
    ensures forall i :: 0 <= i < |items| ==> Tells(Elements(st, rank, elem, items, probe)[i],
            Sat(st, rank, elem, items[i]))
    ensures Tells(First(Elements(st, rank, elem, items, probe)), AllSat(st, rank, elem, items))
    decreases 1 + SizeItems(items), 0, 0
  {
    var outs := Elements(st, rank, elem, items, probe);
    var truth := seq(|items|, i requires 0 <= i < |items| => Sat(st, rank, elem, items[i]));
    forall i | 0 <= i < |items| ensures Tells(outs[i], truth[i]) { Conforms(st, rank, elem, items[i], probe); }
    FirstTells(outs, truth);
    assert AllSat(st, rank, elem, items) <==> All(truth) by {
      if All(truth) { forall i | 0 <= i < |items| ensures Sat(st, rank, elem, items[i]) { assert truth[i]; } }
    }
  }

  lemma ConformsEach(st: Store, rank: seq<nat>, id: nat, ids: seq<nat>, v: Value, probe: bool)
    requires Ranked(st, rank) && id < |st| && forall k :: 0 <= k < |ids| ==> ids[k] in Same(st[id])
    ensures forall i :: 0 <= i < |ids| ==> Tells(Each(st, rank, id, ids, v, probe)[i], Holds(st, rank, id, ids[i], v))
    decreases Size(v), rank[id], 0
  {
    forall i | 0 <= i < |ids|
      ensures Tells(Each(st, rank, id, ids, v, probe)[i], Holds(st, rank, id, ids[i], v))
    {
      RankFalls(st, rank, id, ids[i]);
      Conforms(st, rank, ids[i], v, probe);
    }
  }

  lemma ConformsArr(st: Store, rank: seq<nat>, id: nat, items: seq<Value>, probe: bool)
    requires Ranked(st, rank) && id < |st|
    requires var k := st[id].kind; k.Arr? || k.ArrLen? || k.ArrUnique? || k.ArrContains?
    ensures Tells(CheckArr(st, rank, id, items, probe), MeansArr(st, rank, id, items))
    decreases Size(List(items)), rank[id], 2
  {
    InnerHas(st, id);
    var k := st[id].kind;
    ConformsElements(st, rank, k.elem, items, probe);
    if k.ArrContains? {
      ConformsElements(st, rank, k.contains, items, true);
      var probes := Elements(st, rank, k.contains, items, true);
      if !AnyCrash(probes) { AcceptsCount(probes, Matches(st, rank, k.contains, items)); }
    }
  }

  lemma ConformsPositional(st: Store, rank: seq<nat>, p: seq<nat>, items: seq<Value>, probe: bool)
    requires Ranked(st, rank) && forall i :: 0 <= i < |p| ==> p[i] < |st|
    ensures Tells(First(Positional(st, rank, p, items, probe)),
                  |p| <= |items| && forall i :: 0 <= i < |p| ==> Sat(st, rank, p[i], items[i]))
    decreases 1 + SizeItems(items), 0, 0
  {
    var outs := Positional(st, rank, p, items, probe);
    var truth := seq(|p|, i requires 0 <= i < |p| => i < |items| && Sat(st, rank, p[i], items[i]));
    forall i | 0 <= i < |p| ensures Tells(outs[i], truth[i]) {
      if i < |items| { Conforms(st, rank, p[i], items[i], probe); }
    }
    FirstTells(outs, truth);
    TuplePrefix(st, rank, p, items, truth);
  }

  lemma ConformsExtra(st: Store, rank: seq<nat>, x: nat, n: nat, items: seq<Value>, probe: bool)
    requires Ranked(st, rank) && x < |st| && n <= |items|
    ensures Tells(First(Elements(st, rank, x, items, probe)[n..]), SatFrom(st, rank, x, n, items))
    decreases 1 + SizeItems(items), 0, 1
  {
    ConformsElements(st, rank, x, items, probe);
    var tail := seq(|items| - n, i requires 0 <= i < |items| - n => Sat(st, rank, x, items[n + i]));
    FirstTells(Elements(st, rank, x, items, probe)[n..], tail);
    TupleTail(st, rank, x, n, items, tail);
  }

  lemma ConformsTuple(st: Store, rank: seq<nat>, id: nat, items: seq<Value>, probe: bool)
    requires Ranked(st, rank) && id < |st| && st[id].kind.Tuple?
    ensures Tells(CheckTuple(st, rank, id, items, probe), MeansTuple(st, rank, id, items))
    decreases Size(List(items)), rank[id], 2
  {
    InnerHas(st, id);
    var p := st[id].kind.prefix; var x := st[id].kind.extra;
    ConformsPositional(st, rank, p, items, probe);
    if |items| > |p| && x.Some? { ConformsExtra(st, rank, x.value, |p|, items, probe); }
  }

  lemma TuplePrefix(st: Store, rank: seq<nat>, p: seq<nat>, items: seq<Value>, truth: seq<bool>)
    requires Ranked(st, rank) && (forall i :: 0 <= i < |p| ==> p[i] < |st|) && |truth| == |p|
    requires forall i :: 0 <= i < |p| ==> truth[i] == (i < |items| && Sat(st, rank, p[i], items[i]))
    ensures All(truth) <==> |p| <= |items| && forall i :: 0 <= i < |p| ==> Sat(st, rank, p[i], items[i])
  {
    if All(truth) {
      assert |p| > 0 ==> truth[|p| - 1];
      forall i | 0 <= i < |p| ensures Sat(st, rank, p[i], items[i]) { assert truth[i]; }
    }
  }

  lemma TupleTail(st: Store, rank: seq<nat>, x: nat, n: nat, items: seq<Value>, tail: seq<bool>)
    requires Ranked(st, rank) && x < |st| && n <= |items| && |tail| == |items| - n
    requires forall i :: 0 <= i < |tail| ==> tail[i] == Sat(st, rank, x, items[n + i])
    ensures All(tail) <==> SatFrom(st, rank, x, n, items)
  {
    if All(tail) {
      forall i | n <= i < |items| ensures Sat(st, rank, x, items[i]) { assert tail[i - n]; }
    }
  }

  lemma ConformsCheck(st: Store, rank: seq<nat>, id: nat, v: Value, probe: bool)
    requires Ranked(st, rank) && id < |st|
    ensures Tells(Check(st, rank, id, v, probe), Means(st, rank, id, v))
    decreases Size(v), rank[id], 4
  {
    var k := st[id].kind;
    if k.Leaf? {
    } else if k.Arr? || k.ArrLen? || k.ArrUnique? || k.ArrContains? {
      if v.List? { ConformsArr(st, rank, id, v.items, probe); }
    } else if k.Tuple? {
      if v.List? { ConformsTuple(st, rank, id, v.items, probe); }
    } else if k.Obj? {
      if v.Record? { ConformsObj(st, rank, id, v.fields, probe); }
    } else {
      ConformsMixed(st, rank, id, v, probe);
    }
  }

  lemma ConformsKey(st: Store, rank: seq<nat>, id: nat, fields: seq<Binding>, key: string, probe: bool)
    requires Ranked(st, rank) && id < |st| && st[id].kind.Obj?
    ensures Tells(First(KeyOuts(st, rank, id, fields, key, probe)), MeansKey(st, rank, id, fields, key))
    decreases Size(Record(fields)), 0, 0
  {
    InnerHas(st, id);
    var o := st[id].kind.opts;
    var named := o.propertyNames.None? || Sat(st, rank, o.propertyNames.value, Text(key));
    if o.propertyNames.Some? { Conforms(st, rank, o.propertyNames.value, Text(key), probe); }
    var pats := seq(|o.patterns|, j requires 0 <= j < |o.patterns| =>
      o.patterns[j].0(key) ==> Sat(st, rank, o.patterns[j].1, Get(fields, key)));
    var outs := KeyOuts(st, rank, id, fields, key, probe);
    forall j | 0 <= j < |o.patterns| ensures Tells(outs[1 + j], pats[j]) {
      if o.patterns[j].0(key) { Conforms(st, rank, o.patterns[j].1, Get(fields, key), probe); }
    }
    FirstTells(outs, [named] + pats);
    AllCons([named] + pats);
    assert ([named] + pats)[1..] == pats;
    if All(pats) {
      forall j | 0 <= j < |o.patterns| && o.patterns[j].0(key) ensures Sat(st, rank, o.patterns[j].1,
          Get(fields, key)) {
        assert pats[j];
      }
    }
  }

  lemma ConformsField(st: Store, rank: seq<nat>, id: nat, fields: seq<Binding>, f: Field, probe: bool)
    requires Ranked(st, rank) && id < |st| && st[id].kind.Obj? && f in st[id].kind.fields
    ensures Tells(FieldOut(st, rank, id, fields, f, probe), MeansField(st, rank, id, fields, f))
    decreases Size(Record(fields)), 0, 0
  {
    FieldInner(st, id, f);
    if !Get(fields, f.key).Null? { Conforms(st, rank, f.schema, Get(fields, f.key), probe); }
  }

  lemma ConformsOne(st: Store, rank: seq<nat>, id: nat, j: nat, v: Value, probe: bool)
    requires Ranked(st, rank) && id < |st| && j in Same(st[id])
    ensures Tells(Each(st, rank, id, [j], v, probe)[0], Holds(st, rank, id, j, v))
    decreases Size(v), rank[id], 1
  {
    ConformsEach(st, rank, id, [j], v, probe);
    assert [j][0] == j;
  }

  lemma ConformsIf(st: Store, rank: seq<nat>, id: nat, v: Value, probe: bool)
    requires Ranked(st, rank) && id < |st| && st[id].kind.If?
    ensures Tells(CheckMixed(st, rank, id, v, probe), MeansMixed(st, rank, id, v))
    decreases Size(v), rank[id], 2
  {
    SameHas(st, id);
    var k := st[id].kind;
    if k.cond.Some? { ConformsOne(st, rank, id, k.cond.value, v, true); }
    if k.then_.Some? { ConformsOne(st, rank, id, k.then_.value, v, probe); }
    if k.else_.Some? { ConformsOne(st, rank, id, k.else_.value, v, probe); }
  }

  lemma ConformsAnyOne(st: Store, rank: seq<nat>, id: nat, v: Value, probe: bool)
    requires Ranked(st, rank) && id < |st| && (st[id].kind.AnyOf? || st[id].kind.OneOf?)
    ensures Tells(CheckMixed(st, rank, id, v, probe), MeansMixed(st, rank, id, v))
    decreases Size(v), rank[id], 2
  {
    SameHas(st, id);
    ConformsCount(st, rank, id, st[id].kind.schemas, v);
  }

  lemma ConformsMixed(st: Store, rank: seq<nat>, id: nat, v: Value, probe: bool)
    requires Ranked(st, rank) && id < |st|
    requires var k := st[id].kind; k.If? || k.AnyOf? || k.OneOf? || k.AllOf? || k.Not? || k.Ref?
    ensures Tells(CheckMixed(st, rank, id, v, probe), MeansMixed(st, rank, id, v))
    decreases Size(v), rank[id], 3
  {
    SameHas(st, id);
    match st[id].kind {
      case If(_, _, _) => ConformsIf(st, rank, id, v, probe);
      case AnyOf(_) => ConformsAnyOne(st, rank, id, v, probe);
      case OneOf(_) => ConformsAnyOne(st, rank, id, v, probe);
      case AllOf(ss) => ConformsAll(st, rank, id, ss, v, probe);
      case Not(s) => if s.Some? { ConformsOne(st, rank, id, s.value, v, true); }
      case Ref(s) => if s.Some? { ConformsOne(st, rank, id, s.value, v, probe); }
    }
  }

  lemma ConformsAll(st: Store, rank: seq<nat>, id: nat, ss: seq<nat>, v: Value, probe: bool)
    requires Ranked(st, rank) && id < |st| && forall k :: 0 <= k < |ss| ==> ss[k] in Same(st[id])
    ensures Tells(First(Each(st, rank, id, ss, v, probe)), forall i :: 0 <= i < |ss| ==> Holds(st, rank, id, ss[i], v))
    decreases Size(v), rank[id], 1
  {
    ConformsEach(st, rank, id, ss, v, probe);
    var truth := seq(|ss|, i requires 0 <= i < |ss| => Holds(st, rank, id, ss[i], v));
    FirstTells(Each(st, rank, id, ss, v, probe), truth);
    if All(truth) { forall i | 0 <= i < |ss| ensures Holds(st, rank, id, ss[i], v) { assert truth[i]; } }
  }

  /** How many of several schemas hold. */
  ghost function Holding(st: Store, rank: seq<nat>, id: nat, ss: seq<nat>, v: Value): set<nat>
    requires Ranked(st, rank) && id < |st| && forall k :: 0 <= k < |ss| ==> ss[k] in Same(st[id])
  {
    set i: nat | i < |ss| && Holds(st, rank, id, ss[i], v)
  }

  lemma ConformsCount(st: Store, rank: seq<nat>, id: nat, ss: seq<nat>, v: Value)
    requires Ranked(st, rank) && id < |st| && forall k :: 0 <= k < |ss| ==> ss[k] in Same(st[id])
    ensures var outs := Each(st, rank, id, ss, v, true); !AnyCrash(outs) ==>
              && (Accepts(outs) > 0 <==> SomeHolds(st, rank, id, ss, v))
              && (Accepts(outs) == 1 <==> OneHolds(st, rank, id, ss, v))
    decreases Size(v), rank[id], 1
  {
    var outs := Each(st, rank, id, ss, v, true);
    ConformsEach(st, rank, id, ss, v, true);
    var h := Holding(st, rank, id, ss, v);
    if !AnyCrash(outs) {
      AcceptsCount(outs, h);
      if i :| 0 <= i < |ss| && Holds(st, rank, id, ss[i], v) {
        assert i in h;
        if |h| == 1 { forall j | j in h ensures j == i { Singleton(h, i, j); } }
        if |h| == 1 { assert OnlyHolder(st, rank, id, ss, v, i); }
        if k :| 0 <= k < |ss| && OnlyHolder(st, rank, id, ss, v, k) { assert h == {k}; }
      } else {
        assert h == {};
      }
    }
  }

  lemma Singleton(s: set<nat>, i: nat, j: nat)
    requires |s| == 1 && i in s && j in s
    ensures i == j
  {
    assert |s - {i}| == 0;
  }

  lemma ConformsKeys(st: Store, rank: seq<nat>, id: nat, fields: seq<Binding>, probe: bool)
    requires Ranked(st, rank) && id < |st| && st[id].kind.Obj?
    ensures Tells(KeysOut(st, rank, id, fields, probe), MeansKeys(st, rank, id, fields))
    decreases Size(Record(fields)), 0, 1
  {
    var outs := seq(|fields|, i requires 0 <= i < |fields| => First(KeyOuts(st, rank, id, fields, fields[i].key,
        probe)));
    var truth := seq(|fields|, i requires 0 <= i < |fields| => MeansKey(st, rank, id, fields, fields[i].key));
    forall i | 0 <= i < |fields| ensures Tells(outs[i], truth[i]) {
      ConformsKey(st, rank, id, fields, fields[i].key, probe);
    }
    FirstTells(outs, truth);
    if All(truth) { forall i | 0 <= i < |fields| ensures MeansKey(st, rank, id, fields,
        fields[i].key) { assert truth[i]; } }
  }

  lemma ConformsFields(st: Store, rank: seq<nat>, id: nat, fields: seq<Binding>, probe: bool)
    requires Ranked(st, rank) && id < |st| && st[id].kind.Obj?
    ensures Tells(FieldsOut(st, rank, id, fields, probe), MeansFields(st, rank, id, fields))
    decreases Size(Record(fields)), 0, 1
  {
    var fs := st[id].kind.fields;
    var outs := seq(|fs|, i requires 0 <= i < |fs| => FieldOut(st, rank, id, fields, fs[i], probe));
    var truth := seq(|fs|, i requires 0 <= i < |fs| => MeansField(st, rank, id, fields, fs[i]));
    forall i | 0 <= i < |fs| ensures Tells(outs[i], truth[i]) { ConformsField(st, rank, id, fields, fs[i], probe); }
    FirstTells(outs, truth);
    if All(truth) { forall i | 0 <= i < |fs| ensures MeansField(st, rank, id, fields, fs[i]) { assert truth[i]; } }
  }

  lemma ConformsStrict(fs: seq<Field>, strict: bool, fields: seq<Binding>, probe: bool)
    ensures Tells(StrictOut(fs, strict, fields, probe), AllDeclared(fs, strict, fields))
  {
    var outs := seq(|fields|, i requires 0 <= i < |fields| =>
      At(Key(fields[i].key), Demand(!strict || Declared(fs, fields[i].key)), probe));
    var truth := seq(|fields|, i requires 0 <= i < |fields| => !strict || Declared(fs, fields[i].key));
    FirstTells(outs, truth);
    if All(truth) && strict { forall i | 0 <= i < |fields| ensures Declared(fs, fields[i].key) { assert truth[i]; } }
  }

  lemma ConformsRequired(deps: seq<(string, seq<string>)>, fields: seq<Binding>)
    ensures Tells(RequiredOut(deps, fields), Companions(deps, fields))
  {
    var outs := seq(|deps|, i requires 0 <= i < |deps| => Demand(Present(fields, deps[i].0)
        ==> AllPresent(fields, deps[i].1)));
    var truth := seq(|deps|, i requires 0 <= i < |deps| => Present(fields, deps[i].0)
        ==> AllPresent(fields, deps[i].1));
    FirstTells(outs, truth);
    if All(truth) {
      forall i | 0 <= i < |deps| && Present(fields, deps[i].0) ensures AllPresent(fields, deps[i].1) {
        assert truth[i];
      }
    }
  }

  lemma ConformsDependent(st: Store, rank: seq<nat>, id: nat, fields: seq<Binding>, probe: bool)
    requires Ranked(st, rank) && id < |st| && st[id].kind.Obj?
    ensures Tells(DependentOut(st, rank, id, fields, probe), MeansDependent(st, rank, id, fields))
    decreases Size(Record(fields)), rank[id], 1
  {
    SameHas(st, id);
    var deps := st[id].kind.opts.depSchemas; var v := Record(fields);
    ConformsEach(st, rank, id, Snds(deps), v, probe);
    var each := Each(st, rank, id, Snds(deps), v, probe);
    var outs := seq(|deps|, i requires 0 <= i < |deps| => if Present(fields, deps[i].0) then each[i] else Accept);
    var truth := seq(|deps|, i requires 0 <= i < |deps| => Present(fields, deps[i].0)
        ==> Holds(st, rank, id, Snds(deps)[i], v));
    FirstTells(outs, truth);
    if All(truth) {
      forall i | 0 <= i < |deps| && Present(fields, deps[i].0) ensures Holds(st, rank, id, Snds(deps)[i], v) {
        assert truth[i];
      }
    }
  }

  lemma PairTells(o: Outcome, outs: seq<Outcome>, t: bool, rest: bool)
    requires Tells(o, t) && Tells(First(outs), rest)
    ensures Tells(First([o] + outs), t && rest)
  {
    assert ([o] + outs)[1..] == outs;
  }

  lemma SixTell(o0: Outcome, o1: Outcome, o2: Outcome, o3: Outcome, o4: Outcome, o5: Outcome,
                t0: bool, t1: bool, t2: bool, t3: bool, t4: bool, t5: bool)
    requires Tells(o0, t0) && Tells(o1, t1) && Tells(o2, t2) && Tells(o3, t3) && Tells(o4, t4) && Tells(o5, t5)
    ensures Tells(First([o0, o1, o2, o3, o4, o5]), t0 && t1 && t2 && t3 && t4 && t5)
  {
    PairTells(o5, [], t5, true);
    PairTells(o4, [o5], t4, t5);
    assert [o5] + [] == [o5] && [o4] + [o5] == [o4, o5];
    FourTell(o0, o1, o2, o3, [o4, o5], t0, t1, t2, t3, t4 && t5);
    assert [o0, o1, o2, o3] + [o4, o5] == [o0, o1, o2, o3, o4, o5];
  }

  lemma FourTell(o0: Outcome, o1: Outcome, o2: Outcome, o3: Outcome, outs: seq<Outcome>,
      t0: bool, t1: bool, t2: bool, t3: bool, rest: bool)
    requires Tells(o0, t0) && Tells(o1, t1) && Tells(o2, t2) && Tells(o3, t3) && Tells(First(outs), rest)
    ensures Tells(First([o0, o1, o2, o3] + outs), t0 && t1 && t2 && t3 && rest)
  {
    var a, b, c := [o3] + outs, [o2] + ([o3] + outs), [o1] + ([o2] + ([o3] + outs));
    PairTells(o3, outs, t3, rest);
    PairTells(o2, a, t2, t3 && rest);
    PairTells(o1, b, t1, t2 && t3 && rest);
    PairTells(o0, c, t0, t1 && t2 && t3 && rest);
    assert [o0] + c == [o0, o1, o2, o3] + outs;
  }

  lemma ConformsObj(st: Store, rank: seq<nat>, id: nat, fields: seq<Binding>, probe: bool)
    requires Ranked(st, rank) && id < |st| && st[id].kind.Obj?
    ensures Tells(CheckObj(st, rank, id, fields, probe), MeansObj(st, rank, id, fields))
    decreases Size(Record(fields)), rank[id], 2
  {
    var fs := st[id].kind.fields; var o := st[id].kind.opts;
    ConformsKeys(st, rank, id, fields, probe);
    ConformsFields(st, rank, id, fields, probe);
    ConformsStrict(fs, o.strict, fields, probe);
    ConformsRequired(o.depRequired, fields);
    ConformsDependent(st, rank, id, fields, probe);
    SixTell(Demand(CountOk(o, |fields|)), KeysOut(st, rank, id, fields, probe), FieldsOut(st, rank, id, fields, probe),
            StrictOut(fs, o.strict, fields, probe), RequiredOut(o.depRequired, fields),
                DependentOut(st, rank, id, fields, probe),
            CountOk(o, |fields|), MeansKeys(st, rank, id, fields), MeansFields(st, rank, id, fields),
            AllDeclared(fs, o.strict, fields), Companions(o.depRequired, fields), MeansDependent(st, rank, id, fields));
  }

  // ------------------------------------------------- the meaning does not depend on ranks

  /** Two rankings give the same meaning on smaller values. */
  ghost predicate AgreeBelow(st: Store, rank: seq<nat>, other: seq<nat>, v: Value)
    requires Ranked(st, rank) && Ranked(st, other)
  {
    forall j: nat, w :: j < |st| && Size(w) < Size(v) ==> Sat(st, rank, j, w) == Sat(st, other, j, w)
  }

  ghost predicate AgreeSame(st: Store, rank: seq<nat>, other: seq<nat>, id: nat, v: Value)
    requires Ranked(st, rank) && Ranked(st, other) && id < |st|
  {
    forall j :: j in Same(st[id]) ==> Holds(st, rank, id, j, v) == Holds(st, other, id, j, v)
  }

  lemma AgreeArr(st: Store, rank: seq<nat>, other: seq<nat>, id: nat, items: seq<Value>)
    requires Ranked(st, rank) && Ranked(st, other) && id < |st| && AgreeBelow(st, rank, other, List(items))
    requires var k := st[id].kind; k.Arr? || k.ArrLen? || k.ArrUnique? || k.ArrContains?
    ensures MeansArr(st, rank, id, items) == MeansArr(st, other, id, items)
  {
    InnerHas(st, id);
    var k := st[id].kind;
    assert AllSat(st, rank, k.elem, items) == AllSat(st, other, k.elem, items);
    if k.ArrContains? { assert Matches(st, rank, k.contains, items) == Matches(st, other, k.contains, items); }
  }

  lemma AgreeTuple(st: Store, rank: seq<nat>, other: seq<nat>, id: nat, items: seq<Value>)
    requires Ranked(st, rank) && Ranked(st, other) && id < |st| && AgreeBelow(st, rank, other, List(items))
             && st[id].kind.Tuple?
    ensures MeansTuple(st, rank, id, items) == MeansTuple(st, other, id, items)
  {
    InnerHas(st, id);
    var p := st[id].kind.prefix; var x := st[id].kind.extra;
    forall i | 0 <= i < |p| && i < |items| ensures Sat(st, rank, p[i], items[i]) == Sat(st, other, p[i], items[i]) { }
    if x.Some? { assert SatFrom(st, rank, x.value, |p|, items) == SatFrom(st, other, x.value, |p|, items); }
  }

  lemma AgreeObj(st: Store, rank: seq<nat>, other: seq<nat>, id: nat, fields: seq<Binding>)
    requires Ranked(st, rank) && Ranked(st, other) && id < |st| && st[id].kind.Obj?
    requires AgreeBelow(st, rank, other, Record(fields)) && AgreeSame(st, rank, other, id, Record(fields))
    ensures MeansObj(st, rank, id, fields) == MeansObj(st, other, id, fields)
  {
    forall i | 0 <= i < |fields|
      ensures MeansKey(st, rank, id, fields, fields[i].key) == MeansKey(st, other, id, fields, fields[i].key)
    {
      InnerHas(st, id);
    }
    assert MeansKeys(st, rank, id, fields) == MeansKeys(st, other, id, fields);
    var fs := st[id].kind.fields;
    forall i | 0 <= i < |fs| ensures MeansField(st, rank, id, fields, fs[i])
        == MeansField(st, other, id, fields, fs[i]) {
      FieldInner(st, id, fs[i]);
    }
    assert MeansFields(st, rank, id, fields) == MeansFields(st, other, id, fields);
    SameHas(st, id);
    assert MeansDependent(st, rank, id, fields) == MeansDependent(st, other, id, fields);
  }

  lemma AgreeMixed(st: Store, rank: seq<nat>, other: seq<nat>, id: nat, v: Value)
    requires Ranked(st, rank) && Ranked(st, other) && id < |st| && AgreeSame(st, rank, other, id, v)
    requires var k := st[id].kind; k.If? || k.AnyOf? || k.OneOf? || k.AllOf? || k.Not? || k.Ref?
    ensures MeansMixed(st, rank, id, v) == MeansMixed(st, other, id, v)
  {
    SameHas(st, id);
    var k := st[id].kind;
    if k.AnyOf? { assert SomeHolds(st, rank, id, k.schemas, v) == SomeHolds(st, other, id, k.schemas, v); }
    else if k.AllOf? {
      forall i | 0 <= i < |k.schemas| ensures Holds(st, rank, id, k.schemas[i], v)
          == Holds(st, other, id, k.schemas[i], v) {
        
      }
    } else if k.OneOf? {
      var ss := k.schemas;
      forall i | 0 <= i < |ss| ensures OnlyHolder(st, rank, id, ss, v, i) == OnlyHolder(st, other, id, ss, v, i) { }
      assert OneHolds(st, rank, id, ss, v) == OneHolds(st, other, id, ss, v);
    } else if k.If? {
      assert k.cond.Some? ==> Holds(st, rank, id, k.cond.value, v) == Holds(st, other, id, k.cond.value, v);
      assert k.then_.Some? ==> Holds(st, rank, id, k.then_.value, v) == Holds(st, other, id, k.then_.value, v);
      assert k.else_.Some? ==> Holds(st, rank, id, k.else_.value, v) == Holds(st, other, id, k.else_.value, v);
    } else if k.Ref? {
      assert k.target.Some? ==> Holds(st, rank, id, k.target.value, v) == Holds(st, other, id, k.target.value, v);
    } else {
      assert k.schema.Some? ==> Holds(st, rank, id, k.schema.value, v) == Holds(st, other, id, k.schema.value, v);
    }
  }

  /** Whichever ranks show that the schema graph is well founded, a schema means the same. */
  lemma RanksMeanTheSame(st: Store, rank: seq<nat>, other: seq<nat>, id: nat, v: Value)
    requires Ranked(st, rank) && Ranked(st, other) && id < |st|
    ensures Sat(st, rank, id, v) == Sat(st, other, id, v)
    decreases Size(v), rank[id]
  {
    forall j: nat, w | j < |st| && Size(w) < Size(v) ensures Sat(st, rank, j, w) == Sat(st, other, j, w) {
      RanksMeanTheSame(st, rank, other, j, w);
    }
    forall j | j in Same(st[id]) ensures Holds(st, rank, id, j, v) == Holds(st, other, id, j, v) {
      RankFalls(st, rank, id, j);
      RanksMeanTheSame(st, rank, other, j, v);
    }
    var k := st[id].kind;
    if k.Arr? || k.ArrLen? || k.ArrUnique? || k.ArrContains? {
      if v.List? { AgreeArr(st, rank, other, id, v.items); }
    } else if k.Tuple? {
      if v.List? { AgreeTuple(st, rank, other, id, v.items); }
    } else if k.Obj? {
      if v.Record? { AgreeObj(st, rank, other, id, v.fields); }
    } else if !k.Leaf? {
      AgreeMixed(st, rank, other, id, v);
    }
    var p := st[id].parent;
    if p.Some? && !IsBase(k) {
      assert p.value in Same(st[id]);
        assert Holds(st, rank, id, p.value, v) == Holds(st, other, id, p.value, v);
    }
  }
}
