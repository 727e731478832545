/** Probe and report mode, crashes, and when validation terminates. */
module SchemaModes {
  import opened Common
  import opened Schema
  import opened SchemaMeaning
  import opened SchemaCrashes
  import opened Graphs

  // ------------------------------------------------------------ probe and report

  /** An outcome without its path. */
  function Strip(o: Outcome): Outcome { if o.Reject? then Reject([]) else o }

  ghost predicate Stripped(probe: seq<Outcome>, report: seq<Outcome>) {
    |probe| == |report| && forall i :: 0 <= i < |probe| ==> probe[i] == Strip(report[i])
  }

  lemma {:induction false} FirstStrip(probe: seq<Outcome>, report: seq<Outcome>)
    requires Stripped(probe, report)
    ensures First(probe) == Strip(First(report))
  {
    if probe != [] {
      assert probe[0] == Strip(report[0]);
      FirstStrip(probe[1..], report[1..]);
    }
  }

  /** No schema in the store constrains property names. */
  predicate NoNames(st: Store) {
    forall i :: 0 <= i < |st| && st[i].kind.Obj? ==> st[i].kind.opts.propertyNames.None?
  }

  /** Without property-name constraints the two modes differ in the error path alone. */
  lemma ModesAgree(st: Store, rank: seq<nat>, id: nat, v: Value)
    requires Ranked(st, rank) && id < |st| && NoNames(st)
    ensures Validate(st, rank, id, v, true) == Strip(Validate(st, rank, id, v, false))
    decreases Size(v), rank[id], 4
  {
    ModesCheck(st, rank, id, v);
    var p := st[id].parent;
    if p.Some? && !IsBase(st[id].kind) {
      RankFalls(st, rank, id, p.value);
      ModesAgree(st, rank, p.value, v);
    }
  }

  lemma ModesElements(st: Store, rank: seq<nat>, elem: nat, items: seq<Value>)
    requires Ranked(st, rank) && elem < |st| && NoNames(st)
    ensures Stripped(Elements(st, rank, elem, items, true), Elements(st, rank, elem, items, false))
    decreases 1 + SizeItems(items), 0, 0
  {
    forall i | 0 <= i < |items|
      ensures Elements(st, rank, elem, items, true)[i] == Strip(Elements(st, rank, elem, items, false)[i])
    {
      ModesAgree(st, rank, elem, items[i]);
    }
  }

  lemma ModesEach(st: Store, rank: seq<nat>, id: nat, ids: seq<nat>, v: Value)
    requires Ranked(st, rank) && id < |st| && NoNames(st) && forall k :: 0 <= k < |ids| ==> ids[k] in Same(st[id])
    ensures Stripped(Each(st, rank, id, ids, v, true), Each(st, rank, id, ids, v, false))
    decreases Size(v), rank[id], 0
  {
    forall i | 0 <= i < |ids|
      ensures Each(st, rank, id, ids, v, true)[i] == Strip(Each(st, rank, id, ids, v, false)[i])
    {
      RankFalls(st, rank, id, ids[i]);
      ModesAgree(st, rank, ids[i], v);
    }
  }

  lemma ModesArr(st: Store, rank: seq<nat>, id: nat, items: seq<Value>)
    requires Ranked(st, rank) && id < |st| && NoNames(st)
    requires var k := st[id].kind; k.Arr? || k.ArrLen? || k.ArrUnique? || k.ArrContains?
    ensures CheckArr(st, rank, id, items, true) == Strip(CheckArr(st, rank, id, items, false))
    decreases Size(List(items)), rank[id], 1
  {
    InnerHas(st, id);
    var k := st[id].kind;
    ModesElements(st, rank, k.elem, items);
    FirstStrip(Elements(st, rank, k.elem, items, true), Elements(st, rank, k.elem, items, false));
  }

  lemma ModesTuple(st: Store, rank: seq<nat>, id: nat, items: seq<Value>)
    requires Ranked(st, rank) && id < |st| && NoNames(st) && st[id].kind.Tuple?
    ensures CheckTuple(st, rank, id, items, true) == Strip(CheckTuple(st, rank, id, items, false))
    decreases Size(List(items)), rank[id], 1
  {
    InnerHas(st, id);
    var p := st[id].kind.prefix; var x := st[id].kind.extra;
    forall i | 0 <= i < |p|
      ensures Positional(st, rank, p, items, true)[i] == Strip(Positional(st, rank, p, items, false)[i])
    {
      if i < |items| { ModesAgree(st, rank, p[i], items[i]); }
    }
    FirstStrip(Positional(st, rank, p, items, true), Positional(st, rank, p, items, false));
    if |items| > |p| && x.Some? {
      ModesElements(st, rank, x.value, items);
      FirstStrip(Elements(st, rank, x.value, items, true)[|p|..], Elements(st, rank, x.value, items, false)[|p|..]);
    }
  }

  lemma ModesKey(st: Store, rank: seq<nat>, id: nat, fields: seq<Binding>, key: string)
    requires Ranked(st, rank) && id < |st| && NoNames(st) && st[id].kind.Obj?
    ensures First(KeyOuts(st, rank, id, fields, key, true)) == Strip(First(KeyOuts(st, rank, id, fields, key, false)))
    decreases Size(Record(fields)), 0, 0
  {
    InnerHas(st, id);
    var o := st[id].kind.opts;
    var t, f := KeyOuts(st, rank, id, fields, key, true), KeyOuts(st, rank, id, fields, key, false);
    forall i | 0 <= i < |t| ensures t[i] == Strip(f[i]) {
      if i > 0 && o.patterns[i - 1].0(key) { ModesAgree(st, rank, o.patterns[i - 1].1, Get(fields, key)); }
    }
    FirstStrip(t, f);
  }

  lemma ModesField(st: Store, rank: seq<nat>, id: nat, fields: seq<Binding>, f: Field)
    requires Ranked(st, rank) && id < |st| && NoNames(st) && st[id].kind.Obj? && f in st[id].kind.fields
    ensures FieldOut(st, rank, id, fields, f, true) == Strip(FieldOut(st, rank, id, fields, f, false))
    decreases Size(Record(fields)), 0, 0
  {
    FieldInner(st, id, f);
    if !Get(fields, f.key).Null? { ModesAgree(st, rank, f.schema, Get(fields, f.key)); }
  }

  lemma ModesObj(st: Store, rank: seq<nat>, id: nat, fields: seq<Binding>)
    requires Ranked(st, rank) && id < |st| && NoNames(st) && st[id].kind.Obj?
    ensures CheckObj(st, rank, id, fields, true) == Strip(CheckObj(st, rank, id, fields, false))
    decreases Size(Record(fields)), rank[id], 2
  {
    var fs := st[id].kind.fields; var o := st[id].kind.opts;
    ModesKeys(st, rank, id, fields);
    ModesFields(st, rank, id, fields);
    ModesStrict(fs, o.strict, fields);
    ModesDependent(st, rank, id, fields);
    ModesRequired(o.depRequired, fields);
    FirstStrip([Demand(CountOk(o, |fields|)), KeysOut(st, rank, id, fields, true),
        FieldsOut(st, rank, id, fields, true),
                StrictOut(fs, o.strict, fields, true), RequiredOut(o.depRequired, fields),
                    DependentOut(st, rank, id, fields, true)],
               [Demand(CountOk(o, |fields|)), KeysOut(st, rank, id, fields, false),
                   FieldsOut(st, rank, id, fields, false),
                StrictOut(fs, o.strict, fields, false), RequiredOut(o.depRequired, fields),
                    DependentOut(st, rank, id, fields, false)]);
  }

  lemma ModesKeys(st: Store, rank: seq<nat>, id: nat, fields: seq<Binding>)
    requires Ranked(st, rank) && id < |st| && NoNames(st) && st[id].kind.Obj?
    ensures KeysOut(st, rank, id, fields, true) == Strip(KeysOut(st, rank, id, fields, false))
    decreases Size(Record(fields)), 0, 1
  {
    var t := seq(|fields|, i requires 0 <= i < |fields| => First(KeyOuts(st, rank, id, fields, fields[i].key, true)));
    var f := seq(|fields|, i requires 0 <= i < |fields| => First(KeyOuts(st, rank, id, fields, fields[i].key, false)));
    forall i | 0 <= i < |fields| ensures t[i] == Strip(f[i]) { ModesKey(st, rank, id, fields, fields[i].key); }
    FirstStrip(t, f);
  }

  lemma ModesFields(st: Store, rank: seq<nat>, id: nat, fields: seq<Binding>)
    requires Ranked(st, rank) && id < |st| && NoNames(st) && st[id].kind.Obj?
    ensures FieldsOut(st, rank, id, fields, true) == Strip(FieldsOut(st, rank, id, fields, false))
    decreases Size(Record(fields)), 0, 1
  {
    var fs := st[id].kind.fields;
    var t := seq(|fs|, i requires 0 <= i < |fs| => FieldOut(st, rank, id, fields, fs[i], true));
    var f := seq(|fs|, i requires 0 <= i < |fs| => FieldOut(st, rank, id, fields, fs[i], false));
    forall i | 0 <= i < |fs| ensures t[i] == Strip(f[i]) { ModesField(st, rank, id, fields, fs[i]); }
    FirstStrip(t, f);
  }

  lemma ModesStrict(fs: seq<Field>, strict: bool, fields: seq<Binding>)
    ensures StrictOut(fs, strict, fields, true) == Strip(StrictOut(fs, strict, fields, false))
  {
    var t := seq(|fields|, i requires 0 <= i < |fields| =>
      At(Key(fields[i].key), Demand(!strict || Declared(fs, fields[i].key)), true));
    var f := seq(|fields|, i requires 0 <= i < |fields| =>
      At(Key(fields[i].key), Demand(!strict || Declared(fs, fields[i].key)), false));
    FirstStrip(t, f);
  }

  lemma ModesRequired(deps: seq<(string, seq<string>)>, fields: seq<Binding>)
    ensures RequiredOut(deps, fields) == Strip(RequiredOut(deps, fields))
  {
    var t := seq(|deps|, i requires 0 <= i < |deps| => Demand(Present(fields, deps[i].0)
        ==> AllPresent(fields, deps[i].1)));
    FirstStrip(t, t);
  }

  lemma ModesDependent(st: Store, rank: seq<nat>, id: nat, fields: seq<Binding>)
    requires Ranked(st, rank) && id < |st| && NoNames(st) && st[id].kind.Obj?
    ensures DependentOut(st, rank, id, fields, true) == Strip(DependentOut(st, rank, id, fields, false))
    decreases Size(Record(fields)), rank[id], 1
  {
    SameHas(st, id);
    var deps := st[id].kind.opts.depSchemas; var v := Record(fields);
    ModesEach(st, rank, id, Snds(deps), v);
    var et, ef := Each(st, rank, id, Snds(deps), v, true), Each(st, rank, id, Snds(deps), v, false);
    var t := seq(|deps|, i requires 0 <= i < |deps| => if Present(fields, deps[i].0) then et[i] else Accept);
    var f := seq(|deps|, i requires 0 <= i < |deps| => if Present(fields, deps[i].0) then ef[i] else Accept);
    FirstStrip(t, f);
  }

  lemma ModesOne(st: Store, rank: seq<nat>, id: nat, j: nat, v: Value)
    requires Ranked(st, rank) && id < |st| && NoNames(st) && j in Same(st[id])
    ensures Each(st, rank, id, [j], v, true)[0] == Strip(Each(st, rank, id, [j], v, false)[0])
    decreases Size(v), rank[id], 0
  {
    RankFalls(st, rank, id, j);
    ModesAgree(st, rank, j, v);
  }

  lemma ModesIf(st: Store, rank: seq<nat>, id: nat, v: Value)
    requires Ranked(st, rank) && id < |st| && NoNames(st) && st[id].kind.If?
    ensures CheckMixed(st, rank, id, v, true) == Strip(CheckMixed(st, rank, id, v, false))
    decreases Size(v), rank[id], 1
  {
    SameHas(st, id);
    var k := st[id].kind;
    if k.then_.Some? { ModesOne(st, rank, id, k.then_.value, v); }
    if k.else_.Some? { ModesOne(st, rank, id, k.else_.value, v); }
  }

  lemma ModesMixed(st: Store, rank: seq<nat>, id: nat, v: Value)
    requires Ranked(st, rank) && id < |st| && NoNames(st)
    requires var k := st[id].kind; k.If? || k.AnyOf? || k.OneOf? || k.AllOf? || k.Not? || k.Ref?
    ensures CheckMixed(st, rank, id, v, true) == Strip(CheckMixed(st, rank, id, v, false))
    decreases Size(v), rank[id], 2
  {
    SameHas(st, id);
    match st[id].kind {
      case If(_, _, _) => ModesIf(st, rank, id, v);
      case AllOf(ss) =>
        ModesEach(st, rank, id, ss, v);
        FirstStrip(Each(st, rank, id, ss, v, true), Each(st, rank, id, ss, v, false));
      case Ref(s) => if s.Some? { ModesOne(st, rank, id, s.value, v); }
      case _ =>
    }
  }

  lemma ModesCheck(st: Store, rank: seq<nat>, id: nat, v: Value)
    requires Ranked(st, rank) && id < |st| && NoNames(st)
    ensures Check(st, rank, id, v, true) == Strip(Check(st, rank, id, v, false))
    decreases Size(v), rank[id], 3
  {
    var k := st[id].kind;
    if k.Leaf? {
    } else if k.Arr? || k.ArrLen? || k.ArrUnique? || k.ArrContains? {
      if v.List? { ModesArr(st, rank, id, v.items); }
    } else if k.Tuple? {
      if v.List? { ModesTuple(st, rank, id, v.items); }
    } else if k.Obj? {
      if v.Record? { ModesObj(st, rank, id, v.fields); }
    } else {
      ModesMixed(st, rank, id, v);
    }
  }

  // -------------------------------------------------- where the modes differ

  // Whatever crashes report mode crashes probe mode as well: what is reached does not depend on
  // the mode, and at a key's name probe mode crashes more often.

  lemma ProbeCrashes(st: Store, rank: seq<nat>, id: nat, v: Value)
    requires Ranked(st, rank) && id < |st| && Crashes(st, rank, id, v, false)
    ensures Crashes(st, rank, id, v, true)
    decreases Size(v), rank[id], 6
  {
    var p := st[id].parent;
    if p.None? || IsBase(st[id].kind) { ProbeHere(st, rank, id, v); }
    else {
      RankFalls(st, rank, id, p.value);
      if Crashes(st, rank, p.value, v, false) { ProbeCrashes(st, rank, p.value, v); }
      else { ProbeHere(st, rank, id, v); }
    }
  }

  lemma ProbeIn(st: Store, rank: seq<nat>, elem: nat, n: nat, items: seq<Value>)
    requires Ranked(st, rank) && elem < |st| && CrashesIn(st, rank, elem, n, items, false)
    ensures CrashesIn(st, rank, elem, n, items, true)
    decreases 1 + SizeItems(items), 0, 0
  {
    var i :| n <= i < |items| && Crashes(st, rank, elem, items[i], false) && SatTo(st, rank, elem, n, i, items);
    ProbeCrashes(st, rank, elem, items[i]);
  }

  lemma ProbeOn(st: Store, rank: seq<nat>, id: nat, j: nat, v: Value)
    requires Ranked(st, rank) && id < |st| && j in Same(st[id]) && CrashesOn(st, rank, id, j, v, false)
    ensures CrashesOn(st, rank, id, j, v, true)
    decreases Size(v), rank[id], 0
  {
    RankFalls(st, rank, id, j);
    ProbeCrashes(st, rank, j, v);
  }

  lemma ProbeTuple(st: Store, rank: seq<nat>, id: nat, items: seq<Value>)
    requires Ranked(st, rank) && id < |st| && st[id].kind.Tuple? && CrashesTuple(st, rank, id, items, false)
    ensures CrashesTuple(st, rank, id, items, true)
    decreases Size(List(items)), rank[id], 2
  {
    InnerHas(st, id);
    var p := st[id].kind.prefix; var x := st[id].kind.extra;
    if i :| 0 <= i < |p| && CrashesPosition(st, rank, p, i, items, false) && SatPrefix(st, rank, p, i, items) {
      if i < |items| { ProbeCrashes(st, rank, p[i], items[i]); }
      assert CrashesPosition(st, rank, p, i, items, true);
    } else { ProbeIn(st, rank, x.value, |p|, items); }
  }

  lemma ProbeKey(st: Store, rank: seq<nat>, id: nat, fields: seq<Binding>, key: string)
    requires Ranked(st, rank) && id < |st| && st[id].kind.Obj? && CrashesKey(st, rank, id, fields, key, false)
    ensures CrashesKey(st, rank, id, fields, key, true)
    decreases Size(Record(fields)), 0, 2
  {
    InnerHas(st, id);
    var o := st[id].kind.opts;
    if CrashesName(st, rank, id, fields, key, false) { ProbeCrashes(st, rank, o.propertyNames.value, Text(key)); }
    else { ProbePatterns(st, rank, id, fields, key); }
  }

  lemma ProbePatterns(st: Store, rank: seq<nat>, id: nat, fields: seq<Binding>, key: string)
    requires Ranked(st, rank) && id < |st| && st[id].kind.Obj? && CrashesPatterns(st, rank, id, fields, key, false)
    ensures CrashesPatterns(st, rank, id, fields, key, true)
    decreases Size(Record(fields)), 0, 1
  {
    InnerHas(st, id);
    var j :| 0 <= j < |st[id].kind.opts.patterns| && CrashesPattern(st, rank, id, fields, key, j, false)
             && forall i :: 0 <= i < j ==> PatternOk(st, rank, id, fields, key, i);
    ProbeCrashes(st, rank, st[id].kind.opts.patterns[j].1, Get(fields, key));
    assert CrashesPattern(st, rank, id, fields, key, j, true);
  }

  lemma ProbeKeys(st: Store, rank: seq<nat>, id: nat, fields: seq<Binding>)
    requires Ranked(st, rank) && id < |st| && st[id].kind.Obj? && CrashesKeys(st, rank, id, fields, false)
    ensures CrashesKeys(st, rank, id, fields, true)
    decreases Size(Record(fields)), 0, 3
  {
    var i :| 0 <= i < |fields| && CrashesKey(st, rank, id, fields, fields[i].key, false)
             && forall j :: 0 <= j < i ==> MeansKey(st, rank, id, fields, fields[j].key);
    ProbeKey(st, rank, id, fields, fields[i].key);
  }

  lemma ProbeFields(st: Store, rank: seq<nat>, id: nat, fields: seq<Binding>)
    requires Ranked(st, rank) && id < |st| && st[id].kind.Obj? && CrashesFields(st, rank, id, fields, false)
    ensures CrashesFields(st, rank, id, fields, true)
    decreases Size(Record(fields)), 0, 1
  {
    var fs := st[id].kind.fields;
    var i :| 0 <= i < |fs| && CrashesField(st, rank, id, fields, fs[i], false)
             && forall j :: 0 <= j < i ==> MeansField(st, rank, id, fields, fs[j]);
    FieldInner(st, id, fs[i]);
    ProbeCrashes(st, rank, fs[i].schema, Get(fields, fs[i].key));
    assert CrashesField(st, rank, id, fields, fs[i], true);
  }

  lemma ProbeDependent(st: Store, rank: seq<nat>, id: nat, fields: seq<Binding>)
    requires Ranked(st, rank) && id < |st| && st[id].kind.Obj? && CrashesDependent(st, rank, id, fields, false)
    ensures CrashesDependent(st, rank, id, fields, true)
    decreases Size(Record(fields)), rank[id], 2
  {
    SameHas(st, id);
    var deps := st[id].kind.opts.depSchemas;
    var i :| 0 <= i < |st[id].kind.opts.depSchemas| && CrashesDependency(st, rank, id, fields, i, false)
             && forall j :: 0 <= j < i ==> DependentOk(st, rank, id, fields, j);
    ProbeOn(st, rank, id, Snds(deps)[i], Record(fields));
    assert CrashesDependency(st, rank, id, fields, i, true);
  }

  lemma ProbeObj(st: Store, rank: seq<nat>, id: nat, fields: seq<Binding>)
    requires Ranked(st, rank) && id < |st| && st[id].kind.Obj? && CrashesObj(st, rank, id, fields, false)
    ensures CrashesObj(st, rank, id, fields, true)
    decreases Size(Record(fields)), rank[id], 4
  {
    if CrashesKeys(st, rank, id, fields, false) { ProbeKeys(st, rank, id, fields); }
    else if CrashesFields(st, rank, id, fields, false) { ProbeFields(st, rank, id, fields); }
    else { ProbeDependent(st, rank, id, fields); }
  }

  lemma ProbeIf(st: Store, rank: seq<nat>, id: nat, v: Value)
    requires Ranked(st, rank) && id < |st| && st[id].kind.If? && CrashesMixed(st, rank, id, v, false)
    ensures CrashesMixed(st, rank, id, v, true)
    decreases Size(v), rank[id], 2
  {
    SameHas(st, id);
    var k := st[id].kind;
    if k.cond.Some? && CrashesOn(st, rank, id, k.cond.value, v, true) {}
    else if k.cond.Some? && Holds(st, rank, id, k.cond.value, v) { ProbeOn(st, rank, id, k.then_.value, v); }
    else { ProbeOn(st, rank, id, k.else_.value, v); }
  }

  lemma ProbeMixed(st: Store, rank: seq<nat>, id: nat, v: Value)
    requires Ranked(st, rank) && id < |st|
    requires var k := st[id].kind; k.If? || k.AnyOf? || k.OneOf? || k.AllOf? || k.Not? || k.Ref?
    requires CrashesMixed(st, rank, id, v, false)
    ensures CrashesMixed(st, rank, id, v, true)
    decreases Size(v), rank[id], 3
  {
    SameHas(st, id);
    match st[id].kind {
      case If(_, _, _) => ProbeIf(st, rank, id, v);
      case AllOf(ss) =>
        var i :| 0 <= i < |ss| && CrashesOn(st, rank, id, ss[i], v, false) && forall j :: 0 <= j < i ==>
              Holds(st, rank, id, ss[j], v);
        ProbeOn(st, rank, id, ss[i], v);
      case Ref(s) => ProbeOn(st, rank, id, s.value, v);
      case _ =>
    }
  }

  lemma ProbeHere(st: Store, rank: seq<nat>, id: nat, v: Value)
    requires Ranked(st, rank) && id < |st| && CrashesHere(st, rank, id, v, false)
    ensures CrashesHere(st, rank, id, v, true)
    decreases Size(v), rank[id], 5
  {
    var k := st[id].kind;
    if k.Arr? || k.ArrLen? || k.ArrUnique? || k.ArrContains? {
      InnerHas(st, id);
      if CrashesIn(st, rank, k.elem, 0, v.items, false) { ProbeIn(st, rank, k.elem, 0, v.items); }
    }
    else if k.Tuple? { ProbeTuple(st, rank, id, v.items); }
    else if k.Obj? { ProbeObj(st, rank, id, v.fields); }
    else { ProbeMixed(st, rank, id, v); }
  }

  predicate SameVerdict(o: Outcome, r: Outcome) { o.Accept? == r.Accept? && o.Reject? == r.Reject? }

  /** The two modes give different verdicts exactly where probe mode crashes, at a reached key
      whose name is not accepted, and report mode does not. */
  lemma NamesDiverge(st: Store, rank: seq<nat>, id: nat, v: Value)
    requires Ranked(st, rank) && id < |st|
    ensures SameVerdict(Validate(st, rank, id, v, true), Validate(st, rank, id, v, false)) <==>
              !(Crashes(st, rank, id, v, true) && !Crashes(st, rank, id, v, false))
  {
    ExactVerdict(st, rank, id, v, true);
    ExactVerdict(st, rank, id, v, false);
    if Crashes(st, rank, id, v, false) { ProbeCrashes(st, rank, id, v); }
  }

  const ANY: Node := Node(None, Leaf(true, _ => true))
  const NEVER: Node := Node(None, Leaf(true, _ => false))

  /** A record schema that accepts no property name. */
  const NAMELESS: Store := [NEVER, Node(None, Obj([], Options(0, 0, Some(0), [], false, [], [])))]
  const FLAT: seq<nat> := [0, 0]
  const ONE_KEY: seq<Binding> := [Binding("a", Null)]

  lemma NamelessRanked()
    ensures Ranked(NAMELESS, FLAT)
  {
    assert Same(NAMELESS[0]) == [] && Same(NAMELESS[1]) == [] && Inner(NAMELESS[0]) == [] && Inner(NAMELESS[1]) == [0];
  }

  lemma NameRefused(probe: bool)
    requires Ranked(NAMELESS, FLAT)
    ensures KeysOut(NAMELESS, FLAT, 1, ONE_KEY, probe) == if probe then Crash else Reject([])
  {
    assert Validate(NAMELESS, FLAT, 0, Text("a"), probe) == Reject([]);
    var outs := KeyOuts(NAMELESS, FLAT, 1, ONE_KEY, "a", probe);
    assert outs[0] == if probe then Crash else Reject([]);
    var all := seq(|ONE_KEY|, i requires 0 <= i < |ONE_KEY| => First(KeyOuts(NAMELESS, FLAT, 1, ONE_KEY,
        ONE_KEY[i].key, probe)));
    assert all[0] == First(outs);
  }

  /** A record with one key whose name is refused: report mode says so, probe mode crashes. */
  lemma NamesCrashProbe()
    ensures Ranked(NAMELESS, FLAT)
    ensures Validate(NAMELESS, FLAT, 1, Record(ONE_KEY), false) == Reject([])
    ensures Validate(NAMELESS, FLAT, 1, Record(ONE_KEY), true) == Crash
  {
    NamelessRanked();
    forall probe: bool ensures Validate(NAMELESS, FLAT, 1, Record(ONE_KEY), probe) == if probe then Crash
        else Reject([]) {
      NameRefused(probe);
      var o := NAMELESS[1].kind.opts;
      SixFirst(Demand(CountOk(o, 1)), KeysOut(NAMELESS, FLAT, 1, ONE_KEY, probe),
          FieldsOut(NAMELESS, FLAT, 1, ONE_KEY, probe),
               StrictOut([], false, ONE_KEY, probe), RequiredOut([], ONE_KEY),
                   DependentOut(NAMELESS, FLAT, 1, ONE_KEY, probe));
    }
  }

  // -------------------------------------------------------------------- crashes

  /** A tuple schema on a shorter array never accepts, and aborts exactly when the elements that
      are there satisfy their schemas or one crashes that comes after satisfied ones. */
  lemma ShortTuple(st: Store, rank: seq<nat>, id: nat, items: seq<Value>, probe: bool)
    requires Ranked(st, rank) && id < |st| && st[id].kind.Tuple? && |items| < |st[id].kind.prefix|
    requires forall i :: 0 <= i < |st[id].kind.prefix| ==> st[id].kind.prefix[i] < |st|
    ensures !CheckTuple(st, rank, id, items, probe).Accept?
    ensures CheckTuple(st, rank, id, items, probe).Crash? <==>
              || SatPrefix(st, rank, st[id].kind.prefix, |items|, items)
              || exists i :: 0 <= i < |items| && Crashes(st, rank, st[id].kind.prefix[i], items[i], probe)
                             && SatPrefix(st, rank, st[id].kind.prefix, i, items)
  {
    InnerHas(st, id);
    var p := st[id].kind.prefix;
    ConformsTuple(st, rank, id, items, probe);
    CrashTuple(st, rank, id, items, probe);
    if i :| 0 <= i < |p| && CrashesPosition(st, rank, p, i, items, probe) && SatPrefix(st, rank, p, i, items) {}
    if SatPrefix(st, rank, p, |items|, items) { assert CrashesPosition(st, rank, p, |items|, items, probe); }
    if i :| 0 <= i < |items| && Crashes(st, rank, p[i], items[i], probe) && SatPrefix(st, rank, p, i, items) {
      assert CrashesPosition(st, rank, p, i, items, probe);
    }
  }

  /** A one-element tuple schema on the empty array aborts. */
  lemma EmptyTupleAborts(probe: bool) returns (st: Store, rank: seq<nat>)
    ensures Ranked(st, rank) && |st| == 2 && Validate(st, rank, 1, List([]), probe) == Crash
  {
    st, rank := [ANY, Node(None, Tuple([0], None))], [0, 0];
    assert Same(st[0]) == [] && Same(st[1]) == [] && Inner(st[0]) == [] && Inner(st[1]) == [0];
    assert Ranked(st, rank);
    var outs := Positional(st, rank, [0], [], probe);
    assert outs[0] == Crash && First(outs) == Crash;
  }

  /** Every list in the value has at least n elements. */
  ghost predicate Roomy(v: Value, n: nat) {
    match v {
      case List(items) => |items| >= n && forall i :: 0 <= i < |items| ==> Roomy(items[i], n)
      case Record(fields) => forall i :: 0 <= i < |fields| ==> Roomy(fields[i].val, n)
      case _ => true
    }
  }

  predicate TuplesUpTo(st: Store, n: nat) {
    forall i :: 0 <= i < |st| && st[i].kind.Tuple? ==> |st[i].kind.prefix| <= n
  }

  /** No schema in the store is tried in probe mode. */
  predicate NoProbes(st: Store) {
    forall i :: 0 <= i < |st| ==>
      var k := st[i].kind; !k.If? && !k.AnyOf? && !k.OneOf? && !k.Not? && !k.ArrContains?
  }

  /** Property names are not constrained, or never in probe mode. */
  predicate NamesTame(st: Store, probe: bool) { NoNames(st) || (!probe && NoProbes(st)) }

  ghost predicate Tame(st: Store, n: nat, v: Value, probe: bool) {
    NamesTame(st, probe) && TuplesUpTo(st, n) && Roomy(v, n)
  }

  lemma {:induction false} FirstNoCrash(outs: seq<Outcome>)
    requires !AnyCrash(outs)
    ensures !First(outs).Crash?
  {
    if outs != [] {
      assert !outs[0].Crash?;
      assert !AnyCrash(outs[1..]) by { assert forall i :: 0 <= i < |outs[1..]| ==> outs[1..][i] == outs[i + 1]; }
      FirstNoCrash(outs[1..]);
    }
  }

  lemma {:induction false} RoomyGet(fields: seq<Binding>, key: string, n: nat)
    requires Roomy(Record(fields), n)
    ensures Roomy(Get(fields, key), n)
  {
    LookupIn(fields, key);
  }

  /** A check on the store and the arrays alone that rules crashes out: no tuple schema is longer
      than the shortest array of the value, and no schema constrains property names, or report
      mode is asked for and no schema is tried in probe mode. */
  lemma NoCrash(st: Store, rank: seq<nat>, id: nat, v: Value, probe: bool, n: nat)
    requires Ranked(st, rank) && id < |st| && Tame(st, n, v, probe)
    ensures !Validate(st, rank, id, v, probe).Crash?
    decreases Size(v), rank[id], 4
  {
    NoCrashCheck(st, rank, id, v, probe, n);
    var p := st[id].parent;
    if p.Some? && !IsBase(st[id].kind) {
      RankFalls(st, rank, id, p.value);
      NoCrash(st, rank, p.value, v, probe, n);
    }
  }

  lemma NoCrashElements(st: Store, rank: seq<nat>, elem: nat, items: seq<Value>, probe: bool, n: nat)
    requires Ranked(st, rank) && elem < |st| && Tame(st, n, List(items), probe)
    ensures !AnyCrash(Elements(st, rank, elem, items, probe))
    decreases 1 + SizeItems(items), 0, 0
  {
    forall i | 0 <= i < |items| ensures !Elements(st, rank, elem, items, probe)[i].Crash? {
      NoCrash(st, rank, elem, items[i], probe, n);
    }
  }

  lemma NoCrashEach(st: Store, rank: seq<nat>, id: nat, ids: seq<nat>, v: Value, probe: bool, n: nat)
    requires Ranked(st, rank) && id < |st| && Tame(st, n, v, probe) && forall k :: 0 <= k < |ids| ==>
               ids[k] in Same(st[id])
    ensures !AnyCrash(Each(st, rank, id, ids, v, probe))
    decreases Size(v), rank[id], 0
  {
    forall i | 0 <= i < |ids| ensures !Each(st, rank, id, ids, v, probe)[i].Crash? {
      RankFalls(st, rank, id, ids[i]);
      NoCrash(st, rank, ids[i], v, probe, n);
    }
  }

  lemma NoCrashArr(st: Store, rank: seq<nat>, id: nat, items: seq<Value>, probe: bool, n: nat)
    requires Ranked(st, rank) && id < |st| && Tame(st, n, List(items), probe)
    requires var k := st[id].kind; k.Arr? || k.ArrLen? || k.ArrUnique? || k.ArrContains?
    ensures !CheckArr(st, rank, id, items, probe).Crash?
    decreases Size(List(items)), rank[id], 1
  {
    InnerHas(st, id);
    var k := st[id].kind;
    NoCrashElements(st, rank, k.elem, items, probe, n);
    FirstNoCrash(Elements(st, rank, k.elem, items, probe));
    if k.ArrContains? { NoCrashElements(st, rank, k.contains, items, true, n); }
  }

  lemma NoCrashTuple(st: Store, rank: seq<nat>, id: nat, items: seq<Value>, probe: bool, n: nat)
    requires Ranked(st, rank) && id < |st| && Tame(st, n, List(items), probe) && st[id].kind.Tuple?
    ensures !CheckTuple(st, rank, id, items, probe).Crash?
    decreases Size(List(items)), rank[id], 1
  {
    InnerHas(st, id);
    var p := st[id].kind.prefix; var x := st[id].kind.extra;
    forall i | 0 <= i < |p| ensures !Positional(st, rank, p, items, probe)[i].Crash? {
      NoCrash(st, rank, p[i], items[i], probe, n);
    }
    FirstNoCrash(Positional(st, rank, p, items, probe));
    if |items| > |p| && x.Some? {
      NoCrashElements(st, rank, x.value, items, probe, n);
      var outs := Elements(st, rank, x.value, items, probe);
      assert forall i :: 0 <= i < |outs[|p|..]| ==> outs[|p|..][i] == outs[|p| + i];
      FirstNoCrash(outs[|p|..]);
    }
  }

  lemma NoCrashKey(st: Store, rank: seq<nat>, id: nat, fields: seq<Binding>, key: string, probe: bool, n: nat)
    requires Ranked(st, rank) && id < |st| && Tame(st, n, Record(fields), probe) && st[id].kind.Obj?
    ensures !First(KeyOuts(st, rank, id, fields, key, probe)).Crash?
    decreases Size(Record(fields)), 0, 0
  {
    InnerHas(st, id);
    var o := st[id].kind.opts; var outs := KeyOuts(st, rank, id, fields, key, probe);
    RoomyGet(fields, key, n);
    forall i | 0 <= i < |outs| ensures !outs[i].Crash? {
      if i == 0 && o.propertyNames.Some? { NoCrash(st, rank, o.propertyNames.value, Text(key), probe, n); }
      if i > 0 && o.patterns[i - 1].0(key) { NoCrash(st, rank, o.patterns[i - 1].1, Get(fields, key), probe, n); }
    }
    FirstNoCrash(outs);
  }

  lemma NoCrashField(st: Store, rank: seq<nat>, id: nat, fields: seq<Binding>, f: Field, probe: bool, n: nat)
    requires Ranked(st, rank) && id < |st| && Tame(st, n, Record(fields), probe) && st[id].kind.Obj?
             && f in st[id].kind.fields
    ensures !FieldOut(st, rank, id, fields, f, probe).Crash?
    decreases Size(Record(fields)), 0, 0
  {
    FieldInner(st, id, f);
    RoomyGet(fields, f.key, n);
    if !Get(fields, f.key).Null? { NoCrash(st, rank, f.schema, Get(fields, f.key), probe, n); }
  }

  lemma NoCrashKeys(st: Store, rank: seq<nat>, id: nat, fields: seq<Binding>, probe: bool, n: nat)
    requires Ranked(st, rank) && id < |st| && Tame(st, n, Record(fields), probe) && st[id].kind.Obj?
    ensures !KeysOut(st, rank, id, fields, probe).Crash?
    decreases Size(Record(fields)), 0, 1
  {
    var keys := seq(|fields|, i requires 0 <= i < |fields| => First(KeyOuts(st, rank, id, fields, fields[i].key,
        probe)));
    forall i | 0 <= i < |keys| ensures !keys[i].Crash? { NoCrashKey(st, rank, id, fields, fields[i].key, probe, n); }
    FirstNoCrash(keys);
  }

  lemma NoCrashFields(st: Store, rank: seq<nat>, id: nat, fields: seq<Binding>, probe: bool, n: nat)
    requires Ranked(st, rank) && id < |st| && Tame(st, n, Record(fields), probe) && st[id].kind.Obj?
    ensures !FieldsOut(st, rank, id, fields, probe).Crash?
    decreases Size(Record(fields)), 0, 1
  {
    var fs := st[id].kind.fields;
    var outs := seq(|fs|, i requires 0 <= i < |fs| => FieldOut(st, rank, id, fields, fs[i], probe));
    forall i | 0 <= i < |outs| ensures !outs[i].Crash? { NoCrashField(st, rank, id, fields, fs[i], probe, n); }
    FirstNoCrash(outs);
  }

  lemma NoCrashStrict(fs: seq<Field>, strict: bool, fields: seq<Binding>, probe: bool)
    ensures !StrictOut(fs, strict, fields, probe).Crash?
  {
    FirstNoCrash(seq(|fields|, i requires 0 <= i < |fields| =>
      At(Key(fields[i].key), Demand(!strict || Declared(fs, fields[i].key)), probe)));
  }

  lemma NoCrashRequired(deps: seq<(string, seq<string>)>, fields: seq<Binding>)
    ensures !RequiredOut(deps, fields).Crash?
  {
    FirstNoCrash(seq(|deps|, i requires 0 <= i < |deps| =>
      Demand(Present(fields, deps[i].0) ==> AllPresent(fields, deps[i].1))));
  }

  lemma NoCrashDependent(st: Store, rank: seq<nat>, id: nat, fields: seq<Binding>, probe: bool, n: nat)
    requires Ranked(st, rank) && id < |st| && Tame(st, n, Record(fields), probe) && st[id].kind.Obj?
    ensures !DependentOut(st, rank, id, fields, probe).Crash?
    decreases Size(Record(fields)), rank[id], 1
  {
    SameHas(st, id);
    var deps := st[id].kind.opts.depSchemas;
    NoCrashEach(st, rank, id, Snds(deps), Record(fields), probe, n);
    var each := Each(st, rank, id, Snds(deps), Record(fields), probe);
    FirstNoCrash(seq(|deps|, i requires 0 <= i < |deps| => if Present(fields, deps[i].0) then each[i] else Accept));
  }

  lemma NoCrashObj(st: Store, rank: seq<nat>, id: nat, fields: seq<Binding>, probe: bool, n: nat)
    requires Ranked(st, rank) && id < |st| && Tame(st, n, Record(fields), probe) && st[id].kind.Obj?
    ensures !CheckObj(st, rank, id, fields, probe).Crash?
    decreases Size(Record(fields)), rank[id], 2
  {
    var fs := st[id].kind.fields; var o := st[id].kind.opts;
    NoCrashKeys(st, rank, id, fields, probe, n);
    NoCrashFields(st, rank, id, fields, probe, n);
    NoCrashStrict(fs, o.strict, fields, probe);
    NoCrashRequired(o.depRequired, fields);
    NoCrashDependent(st, rank, id, fields, probe, n);
    FirstNoCrash([Demand(CountOk(o, |fields|)), KeysOut(st, rank, id, fields, probe),
        FieldsOut(st, rank, id, fields, probe),
                  StrictOut(fs, o.strict, fields, probe), RequiredOut(o.depRequired, fields),
                  DependentOut(st, rank, id, fields, probe)]);
  }

  lemma NoCrashIf(st: Store, rank: seq<nat>, id: nat, v: Value, probe: bool, n: nat)
    requires Ranked(st, rank) && id < |st| && Tame(st, n, v, probe) && st[id].kind.If?
    ensures !CheckMixed(st, rank, id, v, probe).Crash?
    decreases Size(v), rank[id], 1
  {
    SameHas(st, id);
    var k := st[id].kind;
    if k.cond.Some? { NoCrashEach(st, rank, id, [k.cond.value], v, true, n); }
    if k.then_.Some? { NoCrashEach(st, rank, id, [k.then_.value], v, probe, n); }
    if k.else_.Some? { NoCrashEach(st, rank, id, [k.else_.value], v, probe, n); }
  }

  lemma NoCrashMixed(st: Store, rank: seq<nat>, id: nat, v: Value, probe: bool, n: nat)
    requires Ranked(st, rank) && id < |st| && Tame(st, n, v, probe)
    requires var k := st[id].kind; k.If? || k.AnyOf? || k.OneOf? || k.AllOf? || k.Not? || k.Ref?
    ensures !CheckMixed(st, rank, id, v, probe).Crash?
    decreases Size(v), rank[id], 2
  {
    SameHas(st, id);
    match st[id].kind {
      case If(_, _, _) => NoCrashIf(st, rank, id, v, probe, n);
      case AnyOf(ss) => NoCrashEach(st, rank, id, ss, v, true, n);
      case OneOf(ss) => NoCrashEach(st, rank, id, ss, v, true, n);
      case AllOf(ss) =>
        NoCrashEach(st, rank, id, ss, v, probe, n);
        FirstNoCrash(Each(st, rank, id, ss, v, probe));
      case Not(s) => if s.Some? { NoCrashEach(st, rank, id, [s.value], v, true, n); }
      case Ref(s) => if s.Some? { NoCrashEach(st, rank, id, [s.value], v, probe, n); }
    }
  }

  lemma NoCrashCheck(st: Store, rank: seq<nat>, id: nat, v: Value, probe: bool, n: nat)
    requires Ranked(st, rank) && id < |st| && Tame(st, n, v, probe)
    ensures !Check(st, rank, id, v, probe).Crash?
    decreases Size(v), rank[id], 3
  {
    var k := st[id].kind;
    if k.Leaf? {
    } else if k.Arr? || k.ArrLen? || k.ArrUnique? || k.ArrContains? {
      if v.List? { NoCrashArr(st, rank, id, v.items, probe, n); }
    } else if k.Tuple? {
      if v.List? { NoCrashTuple(st, rank, id, v.items, probe, n); }
    } else if k.Obj? {
      if v.Record? { NoCrashObj(st, rank, id, v.fields, probe, n); }
    } else {
      NoCrashMixed(st, rank, id, v, probe, n);
    }
  }

  // ---------------------------------------------------------------- termination

  /** The edges along which validation stays at the same value. */
  ghost function SameGraph(st: Store): Graph { seq(|st|, i requires 0 <= i < |st| => Same(st[i])) }

  /** If every cycle of the schema graph goes through an element, a field or a key, there are
      ranks by which validation of every value terminates. */
  lemma Terminates(st: Store) returns (rank: seq<nat>)
    requires Closed(st) && NoCycle(SameGraph(st))
    ensures Ranked(st, rank)
  {
    rank := RanksExist(SameGraph(st));
    forall i, k | 0 <= i < |st| && 0 <= k < |Same(st[i])| ensures rank[Same(st[i])[k]] < rank[i] {
      assert SameGraph(st)[i][k] == Same(st[i])[k];
    }
  }

  /** Ranks exist only then.  The code can end on such a cycle all the same, if an error is met
      before it is closed (`SchemaRuns.EndsOnCycle`). */
  lemma TerminatesOnlyIf(st: Store, rank: seq<nat>)
    requires Ranked(st, rank)
    ensures NoCycle(SameGraph(st))
  {
    RanksNeedNoCycle(SameGraph(st), rank);
  }
}
