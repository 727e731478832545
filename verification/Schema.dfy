/**
 Schema validation: schemas form a graph whose nodes point at each other by number, values are
 trees.  The validator walks both; the meaning of a schema is stated beside it with quantifiers.
 */
module Schema {
  import opened Common

  // ----------------------------------------------------------------- values

  datatype Value = Null | Scalar(n: int) | Text(s: string) | List(items: seq<Value>) | Record(fields: seq<Binding>)

  datatype Binding = Binding(key: string, val: Value)

  function Size(v: Value): (r: nat)
    ensures r > 0
  {
    match v {
      case List(items) => 1 + SizeItems(items)
      case Record(fields) => 2 + SizeFields(fields)
      case _ => 1
    }
  }

  function SizeItems(items: seq<Value>): (r: nat)
    ensures forall i :: 0 <= i < |items| ==> Size(items[i]) <= r
  {
    if items == [] then 0 else Size(items[|items| - 1]) + SizeItems(items[..|items| - 1])
  }

  function SizeFields(fields: seq<Binding>): (r: nat)
    ensures forall i :: 0 <= i < |fields| ==> Size(fields[i].val) <= r
  {
    if fields == [] then 0 else Size(fields[|fields| - 1].val) + SizeFields(fields[..|fields| - 1])
  }

  function Lookup(fields: seq<Binding>, key: string): Option<Value> {
    if fields == [] then None else if fields[0].key == key then Some(fields[0].val) else Lookup(fields[1..], key)
  }

  /** goc_dict_get with NULL for a missing key. */
  function Get(fields: seq<Binding>, key: string): (v: Value)
    ensures Size(v) < Size(Record(fields))
  {
    LookupSize(fields, key);
    match Lookup(fields, key) case None => Null case Some(v) => v
  }

  lemma {:induction false} LookupIn(fields: seq<Binding>, key: string)
    ensures Lookup(fields, key).Some? ==> exists i :: 0 <= i < |fields| && fields[i].val == Lookup(fields, key).value
  {
    if fields != [] && fields[0].key != key {
      LookupIn(fields[1..], key);
      if Lookup(fields, key).Some? {
        var i :| 0 <= i < |fields[1..]| && fields[1..][i].val == Lookup(fields, key).value;
        assert fields[i + 1].val == Lookup(fields, key).value;
      }
    }
  }

  lemma LookupSize(fields: seq<Binding>, key: string)
    ensures Lookup(fields, key).Some? ==> Size(Lookup(fields, key).value) <= SizeFields(fields)
  {
    LookupIn(fields, key);
  }

  function Present(fields: seq<Binding>, key: string): bool { Lookup(fields, key).Some? }

  // ---------------------------------------------------------------- schemas

  datatype Field = Field(key: string, schema: nat, optional: bool)

  datatype Options = Options(
    minProperties: nat, maxProperties: nat, propertyNames: Option<nat>,
    patterns: seq<(string -> bool, nat)>, strict: bool,
    depRequired: seq<(string, seq<string>)>, depSchemas: seq<(string, nat)>)

  /** The scalar kinds differ only in their test; `base` says which kinds skip the parent. */
  datatype Kind =
    | Leaf(base: bool, test: Value -> bool)
    | Arr(elem: nat)
    | ArrLen(elem: nat, min: nat, max: nat)
    | ArrUnique(elem: nat, same: (Value, Value) -> bool)
    | ArrContains(elem: nat, contains: nat, minContains: nat, maxContains: nat)
    | Tuple(prefix: seq<nat>, extra: Option<nat>)
    | Obj(fields: seq<Field>, opts: Options)
    | If(cond: Option<nat>, then_: Option<nat>, else_: Option<nat>)
    | AnyOf(schemas: seq<nat>)
    | OneOf(schemas: seq<nat>)
    | AllOf(schemas: seq<nat>)
    | Not(schema: Option<nat>)
    | Ref(target: Option<nat>)

  datatype Node = Node(parent: Option<nat>, kind: Kind)

  predicate IsBase(k: Kind) { (k.Leaf? && k.base) || k.Arr? || k.Obj? }

  function Opt(o: Option<nat>): seq<nat> { if o.Some? then [o.value] else [] }

  function Snds<T>(s: seq<(T, nat)>): seq<nat> { seq(|s|, i requires 0 <= i < |s| => s[i].1) }

  /** The schemas a node applies to the very value it is applied to. */
  function Same(node: Node): seq<nat> {
    (if IsBase(node.kind) then [] else Opt(node.parent)) +
    match node.kind {
      case If(c, t, e) => Opt(c) + Opt(t) + Opt(e)
      case AnyOf(ss) => ss
      case OneOf(ss) => ss
      case AllOf(ss) => ss
      case Not(s) => Opt(s)
      case Ref(s) => Opt(s)
      case Obj(_, o) => Snds(o.depSchemas)
      case _ => []
    }
  }

  /** The schemas a node applies to elements, fields and keys. */
  function Inner(node: Node): seq<nat> {
    match node.kind {
      case Arr(e) => [e]
      case ArrLen(e, _, _) => [e]
      case ArrUnique(e, _) => [e]
      case ArrContains(e, c, _, _) => [e, c]
      case Tuple(p, x) => p + Opt(x)
      case Obj(fs, o) => seq(|fs|, i requires 0 <= i < |fs| => fs[i].schema) + Snds(o.patterns) + Opt(o.propertyNames)
      case _ => []
    }
  }

  type Store = seq<Node>

  ghost predicate Closed(st: Store) {
    forall i :: 0 <= i < |st| ==>
      (forall k :: 0 <= k < |Same(st[i])| ==> Same(st[i])[k] < |st|)
      && (forall k :: 0 <= k < |Inner(st[i])| ==> Inner(st[i])[k] < |st|)
  }

  /** Ranks fall along every edge that stays at the same value. */
  ghost predicate Ranked(st: Store, rank: seq<nat>) {
    && Closed(st) && |rank| == |st|
    && forall i, k :: 0 <= i < |st| && 0 <= k < |Same(st[i])| ==> rank[Same(st[i])[k]] < rank[i]
  }

  predicate Edge(st: Store, i: nat, j: nat) { i < |st| && j in Same(st[i]) }

  lemma RankFalls(st: Store, rank: seq<nat>, i: nat, j: nat)
    requires Ranked(st, rank) && Edge(st, i, j)
    ensures j < |st| && rank[j] < rank[i]
  {
    var k :| 0 <= k < |Same(st[i])| && Same(st[i])[k] == j;
  }

  // -------------------------------------------------------------- outcomes

  datatype Step = Index(i: nat) | Key(k: string)

  /** Crash stands for the abort on an array shorter than its tuple schema, and for reading
      the message of the probe mode's placeholder error. */
  datatype Outcome = Accept | Reject(path: seq<Step>) | Crash

  /** The first outcome that is not an acceptance. */
  function First(outs: seq<Outcome>): Outcome {
    if outs == [] then Accept else if outs[0] != Accept then outs[0] else First(outs[1..])
  }

  /** An error found below a step; the probe mode keeps no paths. */
  function At(step: Step, o: Outcome, probe: bool): Outcome {
    if o.Reject? && !probe then Reject([step] + o.path) else o
  }

  function Demand(b: bool): Outcome { if b then Accept else Reject([]) }

  function Accepts(outs: seq<Outcome>): nat {
    if outs == [] then 0 else Accepts(outs[..|outs| - 1]) + (if outs[|outs| - 1].Accept? then 1 else 0)
  }

  predicate AnyCrash(outs: seq<Outcome>) { exists i :: 0 <= i < |outs| && outs[i].Crash? }

  // ------------------------------------------------------------- validation

  /** goc_schema_validate_impl: the parent first, unless the kind is a base kind. */
  function Validate(st: Store, ghost rank: seq<nat>, id: nat, v: Value, probe: bool): Outcome
    requires Ranked(st, rank) && id < |st|
    decreases Size(v), rank[id], 4
  {
    var p := st[id].parent;
    if p.None? || IsBase(st[id].kind) then Check(st, rank, id, v, probe)
    else
      RankFalls(st, rank, id, p.value);
      var up := Validate(st, rank, p.value, v, probe);
      if up != Accept then up else Check(st, rank, id, v, probe)
  }

  /** Apply a schema to each element of a list. */
  function Elements(st: Store, ghost rank: seq<nat>, elem: nat, items: seq<Value>, probe: bool): (outs: seq<Outcome>)
    requires Ranked(st, rank) && elem < |st|
    ensures |outs| == |items|
    decreases 1 + SizeItems(items), 0, 0
  {
    seq(|items|, i requires 0 <= i < |items| => At(Index(i), Validate(st, rank, elem, items[i], probe), probe))
  }

  /** Apply schemas to the value at hand. */
  function Each(st: Store, ghost rank: seq<nat>, id: nat, ids: seq<nat>, v: Value, probe: bool): (outs: seq<Outcome>)
    requires Ranked(st, rank) && id < |st| && forall k :: 0 <= k < |ids| ==> ids[k] in Same(st[id])
    ensures |outs| == |ids|
    decreases Size(v), rank[id], 0
  {
    seq(|ids|, i requires 0 <= i < |ids| => RankFalls(st, rank, id, ids[i]); Validate(st, rank, ids[i], v, probe))
  }

  /** The array kinds. */
  function CheckArr(st: Store, ghost rank: seq<nat>, id: nat, items: seq<Value>, probe: bool): Outcome
    requires Ranked(st, rank) && id < |st|
    requires var k := st[id].kind; k.Arr? || k.ArrLen? || k.ArrUnique? || k.ArrContains?
    decreases Size(List(items)), rank[id], 1
  {
    InnerHas(st, id);
    var k := st[id].kind;
    var outs := Elements(st, rank, k.elem, items, probe);
    match k {
      case ArrLen(_, lo, hi) => if lo <= |items| <= hi then First(outs) else Reject([])
      case ArrUnique(_, same) =>
        if First(outs) != Accept then First(outs)
        else Demand(!exists i, j :: 0 <= i < j < |items| && same(items[i], items[j]))
      case ArrContains(_, c, lo, hi) =>
        if First(outs) != Accept then First(outs)
        else
          var probes := Elements(st, rank, c, items, true);
          if AnyCrash(probes) then Crash else Demand(lo <= Accepts(probes) && (hi != 0 ==> Accepts(probes) <= hi))
      case _ => First(outs)
    }
  }

  /** The positional schemas of a tuple; the array access past the end aborts. */
  function Positional(st: Store, ghost rank: seq<nat>, prefix: seq<nat>, items: seq<Value>,
      probe: bool): (outs: seq<Outcome>)
    requires Ranked(st, rank) && forall i :: 0 <= i < |prefix| ==> prefix[i] < |st|
    ensures |outs| == |prefix|
    decreases 1 + SizeItems(items), 0, 0
  {
    seq(|prefix|, i requires 0 <= i < |prefix| =>
      if i < |items| then At(Index(i), Validate(st, rank, prefix[i], items[i], probe), probe) else Crash)
  }

  function CheckTuple(st: Store, ghost rank: seq<nat>, id: nat, items: seq<Value>, probe: bool): Outcome
    requires Ranked(st, rank) && id < |st| && st[id].kind.Tuple?
    decreases Size(List(items)), rank[id], 1
  {
    InnerHas(st, id);
    var p := st[id].kind.prefix; var x := st[id].kind.extra;
    var outs := Positional(st, rank, p, items, probe);
    if First(outs) != Accept then First(outs)
    else if |items| <= |p| then Accept
    else if x.None? then Reject([])
    else First(Elements(st, rank, x.value, items, probe)[|p|..])
  }

  /** What one key of a record is checked for: its name, then the patterns it matches. */
  function KeyOuts(st: Store, ghost rank: seq<nat>, id: nat, fields: seq<Binding>, key: string,
      probe: bool): seq<Outcome>
    requires Ranked(st, rank) && id < |st| && st[id].kind.Obj?
    decreases Size(Record(fields)), 0, 0
  {
    InnerHas(st, id);
    var o := st[id].kind.opts;
    var named :=
      if o.propertyNames.None? then Accept
      else
        match Validate(st, rank, o.propertyNames.value, Text(key), probe)
        case Reject(_) => if probe then Crash else Reject([])
        case r => r;
    [named] + seq(|o.patterns|, j requires 0 <= j < |o.patterns| =>
      if o.patterns[j].0(key) then At(Key(key), Validate(st, rank, o.patterns[j].1, Get(fields, key), probe), probe)
          else Accept)
  }

  /** A declared field: a missing or null one must be optional, any other must conform. */
  function FieldOut(st: Store, ghost rank: seq<nat>, id: nat, fields: seq<Binding>, f: Field, probe: bool): Outcome
    requires Ranked(st, rank) && id < |st| && st[id].kind.Obj? && f in st[id].kind.fields
    decreases Size(Record(fields)), 0, 0
  {
    FieldInner(st, id, f);
    if Get(fields, f.key).Null? then At(Key(f.key), Demand(f.optional), probe)
    else At(Key(f.key), Validate(st, rank, f.schema, Get(fields, f.key), probe), probe)
  }

  function KeysOut(st: Store, ghost rank: seq<nat>, id: nat, fields: seq<Binding>, probe: bool): Outcome
    requires Ranked(st, rank) && id < |st| && st[id].kind.Obj?
    decreases Size(Record(fields)), 0, 1
  {
    First(seq(|fields|, i requires 0 <= i < |fields| => First(KeyOuts(st, rank, id, fields, fields[i].key, probe))))
  }

  function FieldsOut(st: Store, ghost rank: seq<nat>, id: nat, fields: seq<Binding>, probe: bool): Outcome
    requires Ranked(st, rank) && id < |st| && st[id].kind.Obj?
    decreases Size(Record(fields)), 0, 1
  {
    var fs := st[id].kind.fields;
    First(seq(|fs|, i requires 0 <= i < |fs| => FieldOut(st, rank, id, fields, fs[i], probe)))
  }

  predicate Declared(fs: seq<Field>, key: string) { exists j :: 0 <= j < |fs| && fs[j].key == key }

  /** In strict mode every key is a declared one. */
  function StrictOut(fs: seq<Field>, strict: bool, fields: seq<Binding>, probe: bool): Outcome {
    First(seq(|fields|, i requires 0 <= i < |fields| =>
      At(Key(fields[i].key), Demand(!strict || Declared(fs, fields[i].key)), probe)))
  }

  predicate AllPresent(fields: seq<Binding>, keys: seq<string>) {
    forall j :: 0 <= j < |keys| ==> Present(fields, keys[j])
  }

  /** A key that is present brings its required companions. */
  function RequiredOut(deps: seq<(string, seq<string>)>, fields: seq<Binding>): Outcome {
    First(seq(|deps|, i requires 0 <= i < |deps| => Demand(Present(fields, deps[i].0)
        ==> AllPresent(fields, deps[i].1))))
  }

  /** A key that is present makes the whole record satisfy a further schema. */
  function DependentOut(st: Store, ghost rank: seq<nat>, id: nat, fields: seq<Binding>, probe: bool): Outcome
    requires Ranked(st, rank) && id < |st| && st[id].kind.Obj?
    decreases Size(Record(fields)), rank[id], 1
  {
    SameHas(st, id);
    var deps := st[id].kind.opts.depSchemas;
    var outs := Each(st, rank, id, Snds(deps), Record(fields), probe);
    First(seq(|deps|, i requires 0 <= i < |deps| => if Present(fields, deps[i].0) then outs[i] else Accept))
  }

  predicate CountOk(o: Options, n: nat) {
    (o.minProperties == 0 || o.minProperties <= n) && (o.maxProperties == 0 || n <= o.maxProperties)
  }

  function CheckObj(st: Store, ghost rank: seq<nat>, id: nat, fields: seq<Binding>, probe: bool): Outcome
    requires Ranked(st, rank) && id < |st| && st[id].kind.Obj?
    decreases Size(Record(fields)), rank[id], 2
  {
    var o := st[id].kind.opts;
    First([Demand(CountOk(o, |fields|)),
           KeysOut(st, rank, id, fields, probe),
           FieldsOut(st, rank, id, fields, probe),
           StrictOut(st[id].kind.fields, o.strict, fields, probe),
           RequiredOut(o.depRequired, fields),
           DependentOut(st, rank, id, fields, probe)])
  }

  /** The kinds that combine schemas on one value. */
  function CheckMixed(st: Store, ghost rank: seq<nat>, id: nat, v: Value, probe: bool): Outcome
    requires Ranked(st, rank) && id < |st|
    requires var k := st[id].kind; k.If? || k.AnyOf? || k.OneOf? || k.AllOf? || k.Not? || k.Ref?
    decreases Size(v), rank[id], 1
  {
    SameHas(st, id);
    match st[id].kind {
      case If(c, t, e) =>
        var test := if c.None? then Reject([]) else Each(st, rank, id, [c.value], v, true)[0];
        if test.Crash? then Crash
        else
          var branch := if test.Accept? then t else e;
          if branch.None? then Accept else Each(st, rank, id, [branch.value], v, probe)[0]
      case AnyOf(ss) =>
        var outs := Each(st, rank, id, ss, v, true);
        if AnyCrash(outs) then Crash else Demand(Accepts(outs) > 0)
      case OneOf(ss) =>
        var outs := Each(st, rank, id, ss, v, true);
        if AnyCrash(outs) then Crash else Demand(Accepts(outs) == 1)
      case AllOf(ss) => First(Each(st, rank, id, ss, v, probe))
      case Not(s) =>
        var test := if s.None? then Reject([]) else Each(st, rank, id, [s.value], v, true)[0];
        if test.Crash? then Crash else Demand(!test.Accept?)
      case Ref(s) => if s.None? then Reject([]) else Each(st, rank, id, [s.value], v, probe)[0]
    }
  }

  function Check(st: Store, ghost rank: seq<nat>, id: nat, v: Value, probe: bool): Outcome
    requires Ranked(st, rank) && id < |st|
    decreases Size(v), rank[id], 3
  {
    var k := st[id].kind;
    if k.Leaf? then Demand(k.test(v))
    else if k.Arr? || k.ArrLen? || k.ArrUnique? || k.ArrContains? then
      if v.List? then CheckArr(st, rank, id, v.items, probe) else Reject([])
    else if k.Tuple? then
      if v.List? then CheckTuple(st, rank, id, v.items, probe) else Reject([])
    else if k.Obj? then
      if v.Record? then CheckObj(st, rank, id, v.fields, probe) else Reject([])
    else CheckMixed(st, rank, id, v, probe)
  }

  // ------------------------------------------------------- facts about the graph

  /** The schemas a node names for elements and keys exist. */
  lemma InnerHas(st: Store, id: nat)
    requires Closed(st) && id < |st|
    ensures var k := st[id].kind;
            && (k.Arr? || k.ArrLen? || k.ArrUnique? || k.ArrContains? ==> k.elem < |st|)
            && (k.ArrContains? ==> k.contains < |st|)
            && (k.Tuple? ==>
                  (forall i :: 0 <= i < |k.prefix| ==> k.prefix[i] < |st|) && (k.extra.Some? ==> k.extra.value < |st|))
            && (k.Obj? && k.opts.propertyNames.Some? ==> k.opts.propertyNames.value < |st|)
            && (k.Obj? ==> forall j :: 0 <= j < |k.opts.patterns| ==> k.opts.patterns[j].1 < |st|)
  {
    var inner := Inner(st[id]); var k := st[id].kind;
    if k.Arr? || k.ArrLen? || k.ArrUnique? || k.ArrContains? { assert inner[0] == k.elem; }
    if k.ArrContains? { assert inner[1] == k.contains; }
    if k.Tuple? {
      forall i | 0 <= i < |k.prefix| ensures k.prefix[i] < |st| { assert inner[i] == k.prefix[i]; }
      if k.extra.Some? { assert inner[|k.prefix|] == k.extra.value; }
    }
    if k.Obj? { ObjInner(st, id); }
  }

  lemma ObjInner(st: Store, id: nat)
    requires Closed(st) && id < |st| && st[id].kind.Obj?
    ensures var o := st[id].kind.opts;
            && (o.propertyNames.Some? ==> o.propertyNames.value < |st|)
            && (forall j :: 0 <= j < |o.patterns| ==> o.patterns[j].1 < |st|)
            && (forall i :: 0 <= i < |st[id].kind.fields| ==> st[id].kind.fields[i].schema < |st|)
  {
    var inner := Inner(st[id]); var fs := st[id].kind.fields; var o := st[id].kind.opts;
    forall i | 0 <= i < |fs| ensures fs[i].schema < |st| { assert inner[i] == fs[i].schema; }
    forall j | 0 <= j < |o.patterns| ensures o.patterns[j].1 < |st| { assert inner[|fs| + j] == o.patterns[j].1; }
    if o.propertyNames.Some? { assert inner[|fs| + |o.patterns|] == o.propertyNames.value; }
  }

  lemma FieldInner(st: Store, id: nat, f: Field)
    requires Closed(st) && id < |st| && st[id].kind.Obj? && f in st[id].kind.fields
    ensures f.schema < |st|
  {
    ObjInner(st, id);
  }

  /** The schemas a node applies to the value at hand are among its same-value edges. */
  lemma SameHas(st: Store, id: nat)
    requires id < |st|
    ensures var k := st[id].kind;
            && (k.AnyOf? || k.OneOf? || k.AllOf? ==> forall i :: 0 <= i < |k.schemas| ==> k.schemas[i] in Same(st[id]))
            && (k.If? ==> (k.cond.Some? ==> k.cond.value in Same(st[id])) && (k.then_.Some? ==>
                  k.then_.value in Same(st[id])) && (k.else_.Some? ==> k.else_.value in Same(st[id])))
            && (k.Not? && k.schema.Some? ==> k.schema.value in Same(st[id]))
            && (k.Ref? && k.target.Some? ==> k.target.value in Same(st[id]))
            && (k.Obj? ==> forall i :: 0 <= i < |Snds(k.opts.depSchemas)| ==>
                  Snds(k.opts.depSchemas)[i] in Same(st[id]))
  {
  }
}
