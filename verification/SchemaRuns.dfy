/**
 Validation as the code runs it: one schema call after the other, each loop left at the first
 error, with a bound on the depth of calls.  It computes `Validate` whenever ranks exist, and
 never ends where the first call of each schema in a set leads back into the set.
 */
module SchemaRuns {
  import opened Common
  import opened Schema
  import opened SchemaMeaning
  import opened SchemaCrashes

  // ------------------------------------------------------------------- what a schema does

  /** One entry of a schema's work list. */
  datatype Job =
    | Fixed(out: Outcome)                                                // settled without another schema
    | Try(id: nat, v: Value, steps: seq<Step>)                           // a schema on a value
    | Name(id: nat, key: string)                                         // a property name
    | Count(tries: seq<(nat, Value)>, least: nat, most: Option<nat>)     // how many probes succeed
    | Branch(cond: nat, yes: Option<nat>, no: Option<nat>, v: Value)     // a probe, then a branch

  function Tries(ids: seq<nat>, v: Value): seq<Job> { seq(|ids|, i requires 0 <= i < |ids| => Try(ids[i], v, [])) }

  function ItemJobs(elem: nat, items: seq<Value>): seq<Job> {
    seq(|items|, i requires 0 <= i < |items| => Try(elem, items[i], [Index(i)]))
  }

  function Positions(p: seq<nat>, items: seq<Value>): seq<Job> {
    seq(|p|, i requires 0 <= i < |p| => if i < |items| then Try(p[i], items[i], [Index(i)]) else Fixed(Crash))
  }

  function TupleJobs(p: seq<nat>, x: Option<nat>, items: seq<Value>): seq<Job> {
    Positions(p, items) +
    if |items| <= |p| then [] else if x.None? then [Fixed(Reject([]))] else ItemJobs(x.value, items)[|p|..]
  }

  function KeyJobs(o: Options, fields: seq<Binding>, key: string): seq<Job> {
    [if o.propertyNames.None? then Fixed(Accept) else Name(o.propertyNames.value, key)] +
    seq(|o.patterns|, j requires 0 <= j < |o.patterns| =>
      if o.patterns[j].0(key) then Try(o.patterns[j].1, Get(fields, key), [Key(key)]) else Fixed(Accept))
  }

  function AllKeyJobs(o: Options, fields: seq<Binding>, n: nat): seq<Job>
    requires n <= |fields|
  {
    if n == 0 then [] else AllKeyJobs(o, fields, n - 1) + KeyJobs(o, fields, fields[n - 1].key)
  }

  function FieldJob(f: Field, fields: seq<Binding>, probe: bool): Job {
    if Get(fields, f.key).Null? then Fixed(At(Key(f.key), Demand(f.optional), probe))
    else Try(f.schema, Get(fields, f.key), [Key(f.key)])
  }

  function FieldJobs(fs: seq<Field>, fields: seq<Binding>, probe: bool): seq<Job> {
    seq(|fs|, i requires 0 <= i < |fs| => FieldJob(fs[i], fields, probe))
  }

  function PlainJobs(fs: seq<Field>, o: Options, fields: seq<Binding>, probe: bool): seq<Job> {
    [Fixed(StrictOut(fs, o.strict, fields, probe)), Fixed(RequiredOut(o.depRequired, fields))]
  }

  function DepJobs(deps: seq<(string, nat)>, fields: seq<Binding>): seq<Job> {
    seq(|deps|, i requires 0 <= i < |deps| =>
      if Present(fields, deps[i].0) then Try(deps[i].1, Record(fields), []) else Fixed(Accept))
  }

  function ObjJobs(fs: seq<Field>, o: Options, fields: seq<Binding>, probe: bool): seq<Job> {
    [Fixed(Demand(CountOk(o, |fields|)))] + AllKeyJobs(o, fields, |fields|) + FieldJobs(fs, fields, probe) +
    PlainJobs(fs, o, fields, probe) + DepJobs(o.depSchemas, fields)
  }

  function Pairs(ids: seq<nat>, v: Value): seq<(nat, Value)> { seq(|ids|, i requires 0 <= i < |ids| => (ids[i], v)) }

  function OptJobs(id: Option<nat>, v: Value): seq<Job> { if id.None? then [] else [Try(id.value, v, [])] }

  /** What a schema does itself, after its parent. */
  function Own(k: Kind, v: Value, probe: bool): seq<Job> {
    match k {
      case Leaf(_, test) => [Fixed(Demand(test(v)))]
      case Arr(e) => if v.List? then ItemJobs(e, v.items) else [Fixed(Reject([]))]
      case ArrLen(e, lo, hi) =>
        if v.List? then [Fixed(Demand(lo <= |v.items| <= hi))] + ItemJobs(e, v.items) else [Fixed(Reject([]))]
      case ArrUnique(e, same) =>
        if v.List? then
          ItemJobs(e, v.items) +
          [Fixed(Demand(!exists i, j :: 0 <= i < j < |v.items| && same(v.items[i], v.items[j])))]
        else [Fixed(Reject([]))]
      case ArrContains(e, c, lo, hi) =>
        if v.List? then
          ItemJobs(e, v.items) +
          [Count(seq(|v.items|, i requires 0 <= i < |v.items| => (c, v.items[i])), lo, if hi == 0 then None
              else Some(hi))]
        else [Fixed(Reject([]))]
      case Tuple(p, x) => if v.List? then TupleJobs(p, x, v.items) else [Fixed(Reject([]))]
      case Obj(fs, o) => if v.Record? then ObjJobs(fs, o, v.fields, probe) else [Fixed(Reject([]))]
      case If(c, t, e) => if c.None? then OptJobs(e, v) else [Branch(c.value, t, e, v)]
      case AnyOf(ss) => [Count(Pairs(ss, v), 1, None)]
      case OneOf(ss) => [Count(Pairs(ss, v), 1, Some(1))]
      case AllOf(ss) => Tries(ss, v)
      case Not(s) => [Count(Pairs(Opt(s), v), 0, Some(0))]
      case Ref(s) => if s.None? then [Fixed(Reject([]))] else [Try(s.value, v, [])]
    }
  }

  function Plan(node: Node, v: Value, probe: bool): seq<Job> {
    (if IsBase(node.kind) then [] else OptJobs(node.parent, v)) + Own(node.kind, v, probe)
  }

  // ------------------------------------------------------------------------------ running

  datatype Tally = Stuck | Crashed | Hits(n: nat)

  /** None: the calls go deeper than `fuel`. */
  function Run(st: Store, id: nat, v: Value, probe: bool, fuel: nat): Option<Outcome>
    decreases fuel, 0, 0
  {
    if fuel == 0 || id >= |st| then None else RunFirst(st, Plan(st[id], v, probe), probe, fuel - 1)
  }

  function RunTries(st: Store, tries: seq<(nat, Value)>, fuel: nat): Tally
    decreases fuel, 1, |tries|
  {
    if tries == [] then Hits(0)
    else
      var n := |tries| - 1;
      match RunTries(st, tries[..n], fuel)
      case Hits(h) =>
        (match Run(st, tries[n].0, tries[n].1, true, fuel)
         case None => Stuck
         case Some(o) => if o.Crash? then Crashed else Hits(h + if o.Accept? then 1 else 0))
      case t => t
  }

  function Steps(steps: seq<Step>, o: Outcome, probe: bool): Outcome {
    if steps == [] then o else At(steps[0], o, probe)
  }

  predicate Within(n: nat, least: nat, most: Option<nat>) { least <= n && (most.Some? ==> n <= most.value) }

  function Named(o: Outcome, probe: bool): Outcome { if o.Reject? then (if probe then Crash else Reject([])) else o }

  function RunJob(st: Store, job: Job, probe: bool, fuel: nat): Option<Outcome>
    decreases fuel, 2, 0
  {
    match job {
      case Fixed(o) => Some(o)
      case Try(id, v, steps) =>
        (match Run(st, id, v, probe, fuel) case None => None case Some(o) => Some(Steps(steps, o, probe)))
      case Name(id, key) =>
        (match Run(st, id, Text(key), probe, fuel) case None => None case Some(o) => Some(Named(o, probe)))
      case Count(tries, least, most) =>
        (match RunTries(st, tries, fuel)
         case Stuck => None case Crashed => Some(Crash) case Hits(n) => Some(Demand(Within(n, least, most))))
      case Branch(c, t, e, v) =>
        (match Run(st, c, v, true, fuel)
         case None => None
         case Some(o) =>
           if o.Crash? then Some(Crash)
           else
             var next := if o.Accept? then t else e;
             if next.None? then Some(Accept) else Run(st, next.value, v, probe, fuel))
    }
  }

  function RunFirst(st: Store, jobs: seq<Job>, probe: bool, fuel: nat): Option<Outcome>
    decreases fuel, 3, |jobs|
  {
    if jobs == [] then Some(Accept)
    else
      match RunJob(st, jobs[0], probe, fuel)
      case None => None
      case Some(o) => if o != Accept then Some(o) else RunFirst(st, jobs[1..], probe, fuel)
  }

  // --------------------------------------------------------------------------- divergence

  /** The schema that is called first, on the same value, whatever the value is. */
  function Head(node: Node): Option<nat> {
    if node.parent.Some? && !IsBase(node.kind) then node.parent
    else
      match node.kind {
        case If(c, t, e) => if c.Some? then c else e
        case AnyOf(ss) => if ss == [] then None else Some(ss[0])
        case OneOf(ss) => if ss == [] then None else Some(ss[0])
        case AllOf(ss) => if ss == [] then None else Some(ss[0])
        case Not(s) => s
        case Ref(s) => s
        case _ => None
      }
  }

  /** Schemas whose first calls stay among them. */
  ghost predicate Trap(st: Store, ids: set<nat>) {
    forall i :: i in ids ==> i < |st| && Head(st[i]).Some? && Head(st[i]).value in ids
  }

  lemma {:induction false} FirstStuck(st: Store, tries: seq<(nat, Value)>, fuel: nat)
    requires tries != [] && Run(st, tries[0].0, tries[0].1, true, fuel).None?
    ensures RunTries(st, tries, fuel).Stuck?
    decreases |tries|
  {
    if |tries| > 1 { FirstStuck(st, tries[..|tries| - 1], fuel); }
  }

  /** In a trap validation calls itself without end, on every value and in both modes. */
  lemma {:induction false} Diverges(st: Store, ids: set<nat>, id: nat, v: Value, probe: bool, fuel: nat)
    requires Trap(st, ids) && id in ids
    ensures Run(st, id, v, probe, fuel).None?
    decreases fuel
  {
    if fuel > 0 {
      var h := Head(st[id]).value;
      Diverges(st, ids, h, v, probe, fuel - 1);
      Diverges(st, ids, h, v, true, fuel - 1);
      HeadStuck(st, st[id], v, probe, fuel - 1);
    }
  }

  /** If the first call gets stuck, so does the schema. */
  lemma HeadStuck(st: Store, node: Node, v: Value, probe: bool, fuel: nat)
    requires Head(node).Some? && Run(st, Head(node).value, v, probe, fuel).None?
    requires Run(st, Head(node).value, v, true, fuel).None?
    ensures RunFirst(st, Plan(node, v, probe), probe, fuel).None?
  {
    var jobs := Plan(node, v, probe);
    if node.parent.Some? && !IsBase(node.kind) { assert jobs[0] == Try(node.parent.value, v, []); }
    else {
      assert jobs == Own(node.kind, v, probe);
      OwnStuck(st, node.kind, Head(node).value, v, probe, fuel);
    }
  }

  lemma OwnStuck(st: Store, k: Kind, h: nat, v: Value, probe: bool, fuel: nat)
    requires Head(Node(None, k)) == Some(h) && Run(st, h, v, probe, fuel).None? && Run(st, h, v, true, fuel).None?
    ensures Own(k, v, probe) != [] && RunJob(st, Own(k, v, probe)[0], probe, fuel).None?
  {
    var job := Own(k, v, probe)[0];
    if job.Count? {
      assert job.tries[0] == (h, v);
      FirstStuck(st, job.tries, fuel);
    }
  }

  // --------------------------------------------------------------------------- refinement

  /** A bound on the depth of calls: by the size of the value, then by rank. */
  function Need(m: nat, r: nat, v: Value): nat { Layers(m, Size(v)) + r }

  /** n times m + 1. */
  function Layers(m: nat, n: nat): nat { if n == 0 then 0 else Layers(m, n - 1) + m + 1 }

  ghost predicate Bounds(m: nat, rank: seq<nat>) { forall i :: 0 <= i < |rank| ==> rank[i] <= m }

  ghost predicate Reachable(st: Store, rank: seq<nat>, m: nat, id: nat, v: Value, fuel: nat)
    requires |rank| == |st|
  {
    id < |st| && Need(m, rank[id], v) < fuel
  }

  ghost predicate Enough(st: Store, rank: seq<nat>, m: nat, job: Job, fuel: nat)
    requires |rank| == |st|
  {
    match job {
      case Fixed(_) => true
      case Try(id, v, _) => Reachable(st, rank, m, id, v, fuel)
      case Name(id, key) => Reachable(st, rank, m, id, Text(key), fuel)
      case Count(tries, _, _) =>
        forall i :: 0 <= i < |tries| ==> Reachable(st, rank, m, tries[i].0, tries[i].1, fuel)
      case Branch(c, t, e, v) =>
        && Reachable(st, rank, m, c, v, fuel)
        && (t.Some? ==> Reachable(st, rank, m, t.value, v, fuel))
            && (e.Some? ==> Reachable(st, rank, m, e.value, v, fuel))
    }
  }

  ghost predicate AllEnough(st: Store, rank: seq<nat>, m: nat, jobs: seq<Job>, fuel: nat)
    requires |rank| == |st|
  {
    forall i :: 0 <= i < |jobs| ==> Enough(st, rank, m, jobs[i], fuel)
  }

  /** The ids of a job are schemas of the store. */
  ghost predicate Known(st: Store, job: Job) {
    match job {
      case Fixed(_) => true
      case Try(id, _, _) => id < |st|
      case Name(id, _) => id < |st|
      case Count(tries, _, _) => forall i :: 0 <= i < |tries| ==> tries[i].0 < |st|
      case Branch(c, t, e, _) => c < |st| && (t.Some? ==> t.value < |st|) && (e.Some? ==> e.value < |st|)
    }
  }

  ghost predicate AllKnown(st: Store, jobs: seq<Job>) { forall i :: 0 <= i < |jobs| ==> Known(st, jobs[i]) }

  ghost function Probes(st: Store, rank: seq<nat>, tries: seq<(nat, Value)>): seq<Outcome>
    requires Ranked(st, rank) && forall i :: 0 <= i < |tries| ==> tries[i].0 < |st|
  {
    seq(|tries|, i requires 0 <= i < |tries| => Validate(st, rank, tries[i].0, tries[i].1, true))
  }

  /** The outcome of a job by the validator. */
  ghost function Out(st: Store, rank: seq<nat>, job: Job, probe: bool): Outcome
    requires Ranked(st, rank) && Known(st, job)
  {
    match job {
      case Fixed(o) => o
      case Try(id, v, steps) => Steps(steps, Validate(st, rank, id, v, probe), probe)
      case Name(id, key) => Named(Validate(st, rank, id, Text(key), probe), probe)
      case Count(tries, least, most) =>
        var outs := Probes(st, rank, tries);
        if AnyCrash(outs) then Crash else Demand(Within(Accepts(outs), least, most))
      case Branch(c, t, e, v) =>
        var o := Validate(st, rank, c, v, true);
        if o.Crash? then Crash
        else
          var next := if o.Accept? then t else e;
          if next.None? then Accept else Validate(st, rank, next.value, v, probe)
    }
  }

  ghost function FirstOut(st: Store, rank: seq<nat>, jobs: seq<Job>, probe: bool): Outcome
    requires Ranked(st, rank) && AllKnown(st, jobs)
  {
    if jobs == [] then Accept
    else if Out(st, rank, jobs[0], probe) != Accept then Out(st, rank, jobs[0], probe)
    else FirstOut(st, rank, jobs[1..], probe)
  }

  lemma AnyCrashTail(outs: seq<Outcome>)
    requires outs != []
    ensures AnyCrash(outs) <==> AnyCrash(outs[..|outs| - 1]) || outs[|outs| - 1].Crash?
  {
    var n := |outs| - 1;
    if AnyCrash(outs[..n]) { var i :| 0 <= i < n && outs[..n][i].Crash?; assert outs[i].Crash?; }
    if AnyCrash(outs) && !outs[n].Crash? { var i :| 0 <= i < |outs| && outs[i].Crash?; assert outs[..n][i].Crash?; }
  }

  ghost function Told(outs: seq<Outcome>): Tally { if AnyCrash(outs) then Crashed else Hits(Accepts(outs)) }

  lemma TriesSnoc(st: Store, tries: seq<(nat, Value)>, outs: seq<Outcome>, fuel: nat)
    requires |tries| == |outs| > 0 && RunTries(st, tries[..|tries| - 1], fuel) == Told(outs[..|tries| - 1])
    requires Run(st, tries[|tries| - 1].0, tries[|tries| - 1].1, true, fuel) == Some(outs[|tries| - 1])
    ensures RunTries(st, tries, fuel) == Told(outs)
  {
    AnyCrashTail(outs);
  }

  lemma {:induction false} RunTriesIs(st: Store, rank: seq<nat>, m: nat, tries: seq<(nat, Value)>, fuel: nat)
    requires Ranked(st, rank) && Bounds(m, rank)
    requires forall i :: 0 <= i < |tries| ==> tries[i].0 < |st| && Reachable(st, rank, m, tries[i].0, tries[i].1, fuel)
    ensures RunTries(st, tries, fuel) == Told(Probes(st, rank, tries))
    decreases fuel, 1, |tries|
  {
    if tries != [] {
      var n := |tries| - 1; var outs := Probes(st, rank, tries);
      RunTriesIs(st, rank, m, tries[..n], fuel);
      assert Probes(st, rank, tries[..n]) == outs[..n];
      RunIs(st, rank, m, tries[n].0, tries[n].1, true, fuel);
      TriesSnoc(st, tries, outs, fuel);
    }
  }

  lemma RunJobIs(st: Store, rank: seq<nat>, m: nat, job: Job, probe: bool, fuel: nat)
    requires Ranked(st, rank) && Bounds(m, rank) && Known(st, job) && Enough(st, rank, m, job, fuel)
    ensures RunJob(st, job, probe, fuel) == Some(Out(st, rank, job, probe))
    decreases fuel, 2, 0
  {
    match job {
      case Fixed(_) =>
      case Try(id, v, _) => RunIs(st, rank, m, id, v, probe, fuel);
      case Name(id, key) => RunIs(st, rank, m, id, Text(key), probe, fuel);
      case Count(tries, _, _) => RunTriesIs(st, rank, m, tries, fuel);
      case Branch(c, t, e, v) =>
        RunIs(st, rank, m, c, v, true, fuel);
        if t.Some? { RunIs(st, rank, m, t.value, v, probe, fuel); }
        if e.Some? { RunIs(st, rank, m, e.value, v, probe, fuel); }
    }
  }

  lemma {:induction false} RunFirstIs(st: Store, rank: seq<nat>, m: nat, jobs: seq<Job>, probe: bool, fuel: nat)
    requires Ranked(st, rank) && Bounds(m, rank) && AllKnown(st, jobs) && AllEnough(st, rank, m, jobs, fuel)
    ensures RunFirst(st, jobs, probe, fuel) == Some(FirstOut(st, rank, jobs, probe))
    decreases fuel, 3, |jobs|
  {
    if jobs != [] {
      RunJobIs(st, rank, m, jobs[0], probe, fuel);
      RunFirstIs(st, rank, m, jobs[1..], probe, fuel);
    }
  }

  // ------------------------------------------------------------- the jobs of a schema call

  lemma Below(m: nat, r: nat, w: Value, q: nat, v: Value)
    requires r <= m && Size(w) < Size(v)
    ensures Need(m, r, w) < Need(m, q, v)
  {
    LayersRise(m, Size(w), Size(v));
  }

  lemma {:induction false} LayersRise(m: nat, a: nat, b: nat)
    requires a < b
    ensures Layers(m, a) + m < Layers(m, b)
  {
    if a < b - 1 { LayersRise(m, a, b - 1); }
  }

  /** Depth for the call of id on v is depth enough for smaller values. */
  lemma ReachSmaller(st: Store, rank: seq<nat>, m: nat, id: nat, v: Value, j: nat, w: Value, fuel: nat)
    requires Ranked(st, rank) && Bounds(m, rank) && id < |st| && Need(m, rank[id], v) <= fuel && j < |st|
             && Size(w) < Size(v)
    ensures Reachable(st, rank, m, j, w, fuel)
  {
    Below(m, rank[j], w, rank[id], v);
  }

  lemma ReachSame(st: Store, rank: seq<nat>, m: nat, id: nat, v: Value, j: nat, fuel: nat)
    requires Ranked(st, rank) && id < |st| && Need(m, rank[id], v) <= fuel && j in Same(st[id])
    ensures Reachable(st, rank, m, j, v, fuel)
  {
    RankFalls(st, rank, id, j);
  }

  lemma EnoughItems(st: Store, rank: seq<nat>, m: nat, id: nat, elem: nat, items: seq<Value>, fuel: nat)
    requires Ranked(st, rank) && Bounds(m, rank) && id < |st| && Need(m, rank[id], List(items)) <= fuel && elem < |st|
    ensures AllEnough(st, rank, m, ItemJobs(elem, items), fuel)
  {
    forall i | 0 <= i < |items| ensures Enough(st, rank, m, ItemJobs(elem, items)[i], fuel) {
      ReachSmaller(st, rank, m, id, List(items), elem, items[i], fuel);
    }
  }

  lemma EnoughArr(st: Store, rank: seq<nat>, m: nat, id: nat, items: seq<Value>, probe: bool, fuel: nat)
    requires Ranked(st, rank) && Bounds(m, rank) && id < |st| && Need(m, rank[id], List(items)) <= fuel
    requires var k := st[id].kind; k.Arr? || k.ArrLen? || k.ArrUnique? || k.ArrContains?
    ensures AllEnough(st, rank, m, Own(st[id].kind, List(items), probe), fuel)
  {
    InnerHas(st, id);
    var k := st[id].kind;
    EnoughItems(st, rank, m, id, k.elem, items, fuel);
    if k.ArrContains? {
      forall i | 0 <= i < |items| ensures Reachable(st, rank, m, k.contains, items[i], fuel) {
        ReachSmaller(st, rank, m, id, List(items), k.contains, items[i], fuel);
      }
    }
  }

  lemma EnoughTuple(st: Store, rank: seq<nat>, m: nat, id: nat, items: seq<Value>, fuel: nat)
    requires Ranked(st, rank) && Bounds(m, rank) && id < |st| && Need(m, rank[id], List(items)) <= fuel
             && st[id].kind.Tuple?
    ensures AllEnough(st, rank, m, TupleJobs(st[id].kind.prefix, st[id].kind.extra, items), fuel)
  {
    InnerHas(st, id);
    var p := st[id].kind.prefix; var x := st[id].kind.extra;
    forall i | 0 <= i < |p| ensures Enough(st, rank, m, Positions(p, items)[i], fuel) {
      if i < |items| { ReachSmaller(st, rank, m, id, List(items), p[i], items[i], fuel); }
    }
    if |items| > |p| && x.Some? { EnoughItems(st, rank, m, id, x.value, items, fuel); }
  }

  lemma EnoughKey(st: Store, rank: seq<nat>, m: nat, id: nat, fields: seq<Binding>, key: string, fuel: nat)
    requires Ranked(st, rank) && Bounds(m, rank) && id < |st| && Need(m, rank[id], Record(fields)) <= fuel
             && st[id].kind.Obj?
    ensures AllEnough(st, rank, m, KeyJobs(st[id].kind.opts, fields, key), fuel)
  {
    InnerHas(st, id);
    var o := st[id].kind.opts; var jobs := KeyJobs(o, fields, key); var v := Record(fields);
    if o.propertyNames.Some? { ReachSmaller(st, rank, m, id, v, o.propertyNames.value, Text(key), fuel); }
    forall i | 0 <= i < |jobs| ensures Enough(st, rank, m, jobs[i], fuel) {
      if i > 0 { ReachSmaller(st, rank, m, id, v, o.patterns[i - 1].1, Get(fields, key), fuel); }
    }
  }

  lemma {:induction false} EnoughKeys(st: Store, rank: seq<nat>, m: nat, id: nat, fields: seq<Binding>, n: nat,
      fuel: nat)
    requires Ranked(st, rank) && Bounds(m, rank) && id < |st| && Need(m, rank[id], Record(fields)) <= fuel
             && st[id].kind.Obj?
    requires n <= |fields|
    ensures AllEnough(st, rank, m, AllKeyJobs(st[id].kind.opts, fields, n), fuel)
  {
    if n > 0 {
      EnoughKeys(st, rank, m, id, fields, n - 1, fuel);
      EnoughKey(st, rank, m, id, fields, fields[n - 1].key, fuel);
    }
  }

  lemma EnoughFields(st: Store, rank: seq<nat>, m: nat, id: nat, fields: seq<Binding>, probe: bool, fuel: nat)
    requires Ranked(st, rank) && Bounds(m, rank) && id < |st| && Need(m, rank[id], Record(fields)) <= fuel
             && st[id].kind.Obj?
    ensures AllEnough(st, rank, m, FieldJobs(st[id].kind.fields, fields, probe), fuel)
  {
    var fs := st[id].kind.fields;
    forall i | 0 <= i < |fs| ensures Enough(st, rank, m, FieldJobs(fs, fields, probe)[i], fuel) {
      FieldInner(st, id, fs[i]);
      ReachSmaller(st, rank, m, id, Record(fields), fs[i].schema, Get(fields, fs[i].key), fuel);
    }
  }

  lemma EnoughDeps(st: Store, rank: seq<nat>, m: nat, id: nat, fields: seq<Binding>, fuel: nat)
    requires Ranked(st, rank) && id < |st| && Need(m, rank[id], Record(fields)) <= fuel && st[id].kind.Obj?
    ensures AllEnough(st, rank, m, DepJobs(st[id].kind.opts.depSchemas, fields), fuel)
  {
    SameHas(st, id);
    var deps := st[id].kind.opts.depSchemas;
    forall i | 0 <= i < |deps| ensures Enough(st, rank, m, DepJobs(deps, fields)[i], fuel) {
      assert Snds(deps)[i] == deps[i].1;
      ReachSame(st, rank, m, id, Record(fields), deps[i].1, fuel);
    }
  }

  lemma EnoughCat(st: Store, rank: seq<nat>, m: nat, a: seq<Job>, b: seq<Job>, fuel: nat)
    requires |rank| == |st| && AllEnough(st, rank, m, a, fuel) && AllEnough(st, rank, m, b, fuel)
    ensures AllEnough(st, rank, m, a + b, fuel)
  {
  }

  lemma EnoughObj(st: Store, rank: seq<nat>, m: nat, id: nat, fields: seq<Binding>, probe: bool, fuel: nat)
    requires Ranked(st, rank) && Bounds(m, rank) && id < |st| && Need(m, rank[id], Record(fields)) <= fuel
             && st[id].kind.Obj?
    ensures AllEnough(st, rank, m, ObjJobs(st[id].kind.fields, st[id].kind.opts, fields, probe), fuel)
  {
    var fs := st[id].kind.fields; var o := st[id].kind.opts;
    var a := [Fixed(Demand(CountOk(o, |fields|)))]; var b := AllKeyJobs(o, fields, |fields|);
    var c := FieldJobs(fs, fields, probe); var d := PlainJobs(fs, o, fields, probe);
    var e := DepJobs(o.depSchemas, fields);
    EnoughKeys(st, rank, m, id, fields, |fields|, fuel);
    EnoughFields(st, rank, m, id, fields, probe, fuel);
    EnoughDeps(st, rank, m, id, fields, fuel);
    EnoughCat(st, rank, m, a, b, fuel);
    EnoughCat(st, rank, m, a + b, c, fuel);
    EnoughCat(st, rank, m, a + b + c, d, fuel);
    EnoughCat(st, rank, m, a + b + c + d, e, fuel);
  }

  lemma EnoughMixed(st: Store, rank: seq<nat>, m: nat, id: nat, v: Value, probe: bool, fuel: nat)
    requires Ranked(st, rank) && id < |st| && Need(m, rank[id], v) <= fuel
    requires var k := st[id].kind; k.If? || k.AnyOf? || k.OneOf? || k.AllOf? || k.Not? || k.Ref?
    ensures AllEnough(st, rank, m, Own(st[id].kind, v, probe), fuel)
  {
    SameHas(st, id);
    forall j | j in Same(st[id]) ensures Reachable(st, rank, m, j, v, fuel) { ReachSame(st, rank, m, id, v, j, fuel); }
  }

  lemma PlanEnough(st: Store, rank: seq<nat>, m: nat, id: nat, v: Value, probe: bool, fuel: nat)
    requires Ranked(st, rank) && Bounds(m, rank) && id < |st| && Need(m, rank[id], v) <= fuel
    ensures AllEnough(st, rank, m, Plan(st[id], v, probe), fuel)
  {
    var k := st[id].kind; var p := st[id].parent;
    if p.Some? && !IsBase(k) { ReachSame(st, rank, m, id, v, p.value, fuel); }
    if k.Arr? || k.ArrLen? || k.ArrUnique? || k.ArrContains? {
      if v.List? { EnoughArr(st, rank, m, id, v.items, probe, fuel); }
    } else if k.Tuple? {
      if v.List? { EnoughTuple(st, rank, m, id, v.items, fuel); }
    } else if k.Obj? {
      if v.Record? { EnoughObj(st, rank, m, id, v.fields, probe, fuel); }
    } else if !k.Leaf? {
      EnoughMixed(st, rank, m, id, v, probe, fuel);
    }
    EnoughCat(st, rank, m, if IsBase(k) then [] else OptJobs(p, v), Own(k, v, probe), fuel);
  }

  lemma EnoughKnown(st: Store, rank: seq<nat>, m: nat, jobs: seq<Job>, fuel: nat)
    requires |rank| == |st| && AllEnough(st, rank, m, jobs, fuel)
    ensures AllKnown(st, jobs)
  {
    forall i | 0 <= i < |jobs| ensures Known(st, jobs[i]) { assert Enough(st, rank, m, jobs[i], fuel); }
  }

  // -------------------------------------------------------- the jobs give the verdict

  lemma {:induction false} FirstOutIs(st: Store, rank: seq<nat>, jobs: seq<Job>, outs: seq<Outcome>, probe: bool)
    requires Ranked(st, rank) && AllKnown(st, jobs) && |jobs| == |outs|
    requires forall i :: 0 <= i < |jobs| ==> Out(st, rank, jobs[i], probe) == outs[i]
    ensures FirstOut(st, rank, jobs, probe) == First(outs)
    decreases |jobs|
  {
    if jobs != [] { FirstOutIs(st, rank, jobs[1..], outs[1..], probe); }
  }

  lemma {:induction false} FirstOutCat(st: Store, rank: seq<nat>, a: seq<Job>, b: seq<Job>, probe: bool)
    requires Ranked(st, rank) && AllKnown(st, a) && AllKnown(st, b)
    ensures AllKnown(st, a + b)
    ensures var o := FirstOut(st, rank, a, probe);
            FirstOut(st, rank, a + b, probe) == if o != Accept then o else FirstOut(st, rank, b, probe)
    decreases |a|
  {
    if a == [] { assert a + b == b; }
    else {
      assert (a + b)[1..] == a[1..] + b;
      FirstOutCat(st, rank, a[1..], b, probe);
    }
  }

  lemma KnownCat(st: Store, a: seq<Job>, b: seq<Job>)
    requires AllKnown(st, a + b)
    ensures AllKnown(st, a) && AllKnown(st, b)
  {
    forall i | 0 <= i < |a| ensures Known(st, a[i]) { assert Known(st, (a + b)[i]); }
    forall i | 0 <= i < |b| ensures Known(st, b[i]) { assert Known(st, (a + b)[|a| + i]); }
  }

  lemma ItemsGive(st: Store, rank: seq<nat>, elem: nat, items: seq<Value>, probe: bool)
    requires Ranked(st, rank) && elem < |st|
    ensures AllKnown(st, ItemJobs(elem, items))
    ensures FirstOut(st, rank, ItemJobs(elem, items), probe) == First(Elements(st, rank, elem, items, probe))
  {
    FirstOutIs(st, rank, ItemJobs(elem, items), Elements(st, rank, elem, items, probe), probe);
  }

  lemma OneOut(st: Store, rank: seq<nat>, job: Job, probe: bool)
    requires Ranked(st, rank) && Known(st, job)
    ensures AllKnown(st, [job]) && FirstOut(st, rank, [job], probe) == Out(st, rank, job, probe)
  {
    assert [job][1..] == [];
  }

  lemma ArrGives(st: Store, rank: seq<nat>, id: nat, items: seq<Value>, probe: bool)
    requires Ranked(st, rank) && id < |st| && AllKnown(st, Own(st[id].kind, List(items), probe))
    requires var k := st[id].kind; k.Arr? || k.ArrLen? || k.ArrUnique?
    ensures FirstOut(st, rank, Own(st[id].kind, List(items), probe), probe) == CheckArr(st, rank, id, items, probe)
  {
    InnerHas(st, id);
    var k := st[id].kind; var jobs := ItemJobs(k.elem, items);
    ItemsGive(st, rank, k.elem, items, probe);
    match k {
      case ArrLen(_, lo, hi) =>
        var job := Fixed(Demand(lo <= |items| <= hi));
        OneOut(st, rank, job, probe);
        FirstOutCat(st, rank, [job], jobs, probe);
      case ArrUnique(_, same) =>
        var job := Fixed(Demand(!exists i, j :: 0 <= i < j < |items| && same(items[i], items[j])));
        OneOut(st, rank, job, probe);
        FirstOutCat(st, rank, jobs, [job], probe);
      case _ =>
    }
  }

  lemma ContainsGives(st: Store, rank: seq<nat>, id: nat, items: seq<Value>, probe: bool)
    requires Ranked(st, rank) && id < |st| && AllKnown(st, Own(st[id].kind, List(items), probe))
             && st[id].kind.ArrContains?
    ensures FirstOut(st, rank, Own(st[id].kind, List(items), probe), probe) == CheckArr(st, rank, id, items, probe)
  {
    InnerHas(st, id);
    var k := st[id].kind; var jobs := ItemJobs(k.elem, items);
    ItemsGive(st, rank, k.elem, items, probe);
    var tries := seq(|items|, i requires 0 <= i < |items| => (k.contains, items[i]));
    var job := Count(tries, k.minContains, if k.maxContains == 0 then None else Some(k.maxContains));
    assert Probes(st, rank, tries) == Elements(st, rank, k.contains, items, true);
    OneOut(st, rank, job, probe);
    FirstOutCat(st, rank, jobs, [job], probe);
  }

  lemma TupleGives(st: Store, rank: seq<nat>, id: nat, items: seq<Value>, probe: bool)
    requires Ranked(st, rank) && id < |st| && st[id].kind.Tuple?
    requires AllKnown(st, TupleJobs(st[id].kind.prefix, st[id].kind.extra, items))
    ensures FirstOut(st, rank, TupleJobs(st[id].kind.prefix, st[id].kind.extra, items), probe)
            == CheckTuple(st, rank, id, items, probe)
  {
    InnerHas(st, id);
    var p := st[id].kind.prefix; var x := st[id].kind.extra; var a := Positions(p, items);
    FirstOutIs(st, rank, a, Positional(st, rank, p, items, probe), probe);
    if |items| > |p| && x.None? {
      OneOut(st, rank, Fixed(Reject([])), probe);
      FirstOutCat(st, rank, a, [Fixed(Reject([]))], probe);
    } else if |items| > |p| {
      var b := ItemJobs(x.value, items)[|p|..];
      FirstOutIs(st, rank, b, Elements(st, rank, x.value, items, probe)[|p|..], probe);
      FirstOutCat(st, rank, a, b, probe);
    } else { FirstOutCat(st, rank, a, [], probe); }
  }

  lemma KeyGives(st: Store, rank: seq<nat>, id: nat, fields: seq<Binding>, key: string, probe: bool)
    requires Ranked(st, rank) && id < |st| && st[id].kind.Obj? && AllKnown(st, KeyJobs(st[id].kind.opts, fields, key))
    ensures FirstOut(st, rank, KeyJobs(st[id].kind.opts, fields, key), probe)
            == First(KeyOuts(st, rank, id, fields, key, probe))
  {
    InnerHas(st, id);
    FirstOutIs(st, rank, KeyJobs(st[id].kind.opts, fields, key), KeyOuts(st, rank, id, fields, key, probe), probe);
  }

  ghost function KeyFirsts(st: Store, rank: seq<nat>, id: nat, fields: seq<Binding>, n: nat, probe: bool): seq<Outcome>
    requires Ranked(st, rank) && id < |st| && st[id].kind.Obj? && n <= |fields|
  {
    seq(n, i requires 0 <= i < n => First(KeyOuts(st, rank, id, fields, fields[i].key, probe)))
  }

  lemma {:induction false} FirstSnoc(outs: seq<Outcome>, o: Outcome)
    ensures First(outs + [o]) == if First(outs) != Accept then First(outs) else o
  {
    if outs == [] { assert [o][1..] == [] && outs + [o] == [o]; }
    else { assert (outs + [o])[1..] == outs[1..] + [o]; FirstSnoc(outs[1..], o); }
  }

  lemma {:induction false} KeysGive(st: Store, rank: seq<nat>, id: nat, fields: seq<Binding>, n: nat, probe: bool)
    requires Ranked(st, rank) && id < |st| && st[id].kind.Obj? && n <= |fields|
    requires AllKnown(st, AllKeyJobs(st[id].kind.opts, fields, n))
    ensures FirstOut(st, rank, AllKeyJobs(st[id].kind.opts, fields, n), probe)
            == First(KeyFirsts(st, rank, id, fields, n, probe))
  {
    if n > 0 {
      var o := st[id].kind.opts; var key := fields[n - 1].key;
      var a, b := AllKeyJobs(o, fields, n - 1), KeyJobs(o, fields, key);
      KnownCat(st, a, b);
      KeysGive(st, rank, id, fields, n - 1, probe);
      KeyGives(st, rank, id, fields, key, probe);
      FirstOutCat(st, rank, a, b, probe);
      var last := First(KeyOuts(st, rank, id, fields, key, probe));
      assert KeyFirsts(st, rank, id, fields, n, probe) == KeyFirsts(st, rank, id, fields, n - 1, probe) + [last];
      FirstSnoc(KeyFirsts(st, rank, id, fields, n - 1, probe), last);
    }
  }

  lemma FieldsGive(st: Store, rank: seq<nat>, id: nat, fields: seq<Binding>, probe: bool)
    requires Ranked(st, rank) && id < |st| && st[id].kind.Obj?
             && AllKnown(st, FieldJobs(st[id].kind.fields, fields, probe))
    ensures FirstOut(st, rank, FieldJobs(st[id].kind.fields, fields, probe), probe)
            == FieldsOut(st, rank, id, fields, probe)
  {
    var fs := st[id].kind.fields; var jobs := FieldJobs(fs, fields, probe);
    var outs := seq(|fs|, i requires 0 <= i < |fs| => FieldOut(st, rank, id, fields, fs[i], probe));
    forall i | 0 <= i < |fs| ensures Out(st, rank, jobs[i], probe) == outs[i] { assert Known(st, jobs[i]); }
    FirstOutIs(st, rank, jobs, outs, probe);
  }

  lemma DepsGive(st: Store, rank: seq<nat>, id: nat, fields: seq<Binding>, probe: bool)
    requires Ranked(st, rank) && id < |st| && st[id].kind.Obj?
             && AllKnown(st, DepJobs(st[id].kind.opts.depSchemas, fields))
    ensures FirstOut(st, rank, DepJobs(st[id].kind.opts.depSchemas, fields), probe)
            == DependentOut(st, rank, id, fields, probe)
  {
    SameHas(st, id);
    var deps := st[id].kind.opts.depSchemas; var jobs := DepJobs(deps, fields);
    var each := Each(st, rank, id, Snds(deps), Record(fields), probe);
    var outs := seq(|deps|, i requires 0 <= i < |deps| => if Present(fields, deps[i].0) then each[i] else Accept);
    forall i | 0 <= i < |deps| ensures Out(st, rank, jobs[i], probe) == outs[i] { assert Known(st, jobs[i]); }
    FirstOutIs(st, rank, jobs, outs, probe);
  }

  lemma PlainGives(st: Store, rank: seq<nat>, a: Outcome, b: Outcome, probe: bool)
    requires Ranked(st, rank)
    ensures AllKnown(st, [Fixed(a), Fixed(b)])
    ensures FirstOut(st, rank, [Fixed(a), Fixed(b)], probe) == if a != Accept then a else b
  {
    OneOut(st, rank, Fixed(b), probe);
    assert [Fixed(a), Fixed(b)][1..] == [Fixed(b)];
  }

  lemma ObjGives(st: Store, rank: seq<nat>, id: nat, fields: seq<Binding>, probe: bool)
    requires Ranked(st, rank) && id < |st| && st[id].kind.Obj?
    requires AllKnown(st, ObjJobs(st[id].kind.fields, st[id].kind.opts, fields, probe))
    ensures FirstOut(st, rank, ObjJobs(st[id].kind.fields, st[id].kind.opts, fields, probe), probe)
            == CheckObj(st, rank, id, fields, probe)
  {
    var fs := st[id].kind.fields; var o := st[id].kind.opts; var n := |fields|;
    var a := [Fixed(Demand(CountOk(o, n)))]; var b := AllKeyJobs(o, fields, n);
    var c := FieldJobs(fs, fields, probe); var d := PlainJobs(fs, o, fields, probe);
    var e := DepJobs(o.depSchemas, fields);
    KnownCat(st, a + b + c + d, e);
    KnownCat(st, a + b + c, d);
    KnownCat(st, a + b, c);
    KnownCat(st, a, b);
    OneOut(st, rank, a[0], probe);
    KeysGive(st, rank, id, fields, n, probe);
    assert KeysOut(st, rank, id, fields, probe) == First(KeyFirsts(st, rank, id, fields, n, probe));
    FieldsGive(st, rank, id, fields, probe);
    PlainGives(st, rank, StrictOut(fs, o.strict, fields, probe), RequiredOut(o.depRequired, fields), probe);
    DepsGive(st, rank, id, fields, probe);
    FirstOutCat(st, rank, a, b, probe);
    FirstOutCat(st, rank, a + b, c, probe);
    FirstOutCat(st, rank, a + b + c, d, probe);
    FirstOutCat(st, rank, a + b + c + d, e, probe);
    SixFirst(Demand(CountOk(o, n)), KeysOut(st, rank, id, fields, probe), FieldsOut(st, rank, id, fields, probe),
             StrictOut(fs, o.strict, fields, probe), RequiredOut(o.depRequired, fields),
             DependentOut(st, rank, id, fields, probe));
  }

  lemma CountGives(st: Store, rank: seq<nat>, id: nat, ss: seq<nat>, v: Value)
    requires Ranked(st, rank) && id < |st| && forall k :: 0 <= k < |ss| ==> ss[k] in Same(st[id])
    ensures forall k :: 0 <= k < |Pairs(ss, v)| ==> Pairs(ss, v)[k].0 < |st|
    ensures Probes(st, rank, Pairs(ss, v)) == Each(st, rank, id, ss, v, true)
  {
    forall k | 0 <= k < |ss| ensures ss[k] < |st| { RankFalls(st, rank, id, ss[k]); }
  }

  lemma MixedGives(st: Store, rank: seq<nat>, id: nat, v: Value, probe: bool)
    requires Ranked(st, rank) && id < |st| && AllKnown(st, Own(st[id].kind, v, probe))
    requires var k := st[id].kind; k.If? || k.AnyOf? || k.OneOf? || k.AllOf? || k.Not? || k.Ref?
    ensures FirstOut(st, rank, Own(st[id].kind, v, probe), probe) == CheckMixed(st, rank, id, v, probe)
  {
    SameHas(st, id);
    var k := st[id].kind; var jobs := Own(k, v, probe);
    if k.AllOf? { FirstOutIs(st, rank, jobs, Each(st, rank, id, k.schemas, v, probe), probe); }
    else if |jobs| == 1 {
      assert Known(st, jobs[0]);
      OneOut(st, rank, jobs[0], probe);
      if k.AnyOf? || k.OneOf? { SomeGives(st, rank, id, v, probe); }
      else if k.Not? { NotGives(st, rank, id, v, probe); }
      else if k.If? { IfGives(st, rank, id, v, probe); }
    }
  }

  lemma SomeGives(st: Store, rank: seq<nat>, id: nat, v: Value, probe: bool)
    requires Ranked(st, rank) && id < |st| && (st[id].kind.AnyOf? || st[id].kind.OneOf?)
    requires Known(st, Own(st[id].kind, v, probe)[0])
    ensures Out(st, rank, Own(st[id].kind, v, probe)[0], probe) == CheckMixed(st, rank, id, v, probe)
  {
    SameHas(st, id);
    CountGives(st, rank, id, st[id].kind.schemas, v);
  }

  lemma IfGives(st: Store, rank: seq<nat>, id: nat, v: Value, probe: bool)
    requires Ranked(st, rank) && id < |st| && st[id].kind.If? && |Own(st[id].kind, v, probe)| == 1
    requires Known(st, Own(st[id].kind, v, probe)[0])
    ensures Out(st, rank, Own(st[id].kind, v, probe)[0], probe) == CheckMixed(st, rank, id, v, probe)
  {
    SameHas(st, id);
  }

  lemma AcceptsOne(o: Outcome)
    ensures Accepts([o]) == (if o.Accept? then 1 else 0) && AnyCrash([o]) == o.Crash?
  {
    assert [o][..0] == [] && [o][0] == o;
  }

  lemma NotGives(st: Store, rank: seq<nat>, id: nat, v: Value, probe: bool)
    requires Ranked(st, rank) && id < |st| && st[id].kind.Not? && Known(st, Own(st[id].kind, v, probe)[0])
    ensures Out(st, rank, Own(st[id].kind, v, probe)[0], probe) == CheckMixed(st, rank, id, v, probe)
  {
    SameHas(st, id);
    var s := st[id].kind.schema;
    CountGives(st, rank, id, Opt(s), v);
    if s.Some? {
      var outs := Each(st, rank, id, [s.value], v, true);
      assert outs == [outs[0]];
      AcceptsOne(outs[0]);
    }
  }

  lemma OwnGives(st: Store, rank: seq<nat>, id: nat, v: Value, probe: bool)
    requires Ranked(st, rank) && id < |st| && AllKnown(st, Own(st[id].kind, v, probe))
    ensures FirstOut(st, rank, Own(st[id].kind, v, probe), probe) == Check(st, rank, id, v, probe)
  {
    var k := st[id].kind;
    if k.Leaf? { OneOut(st, rank, Fixed(Demand(k.test(v))), probe); }
    else if k.Arr? || k.ArrLen? || k.ArrUnique? || k.ArrContains? || k.Tuple? {
      if !v.List? { OneOut(st, rank, Fixed(Reject([])), probe); }
      else if k.Tuple? { TupleGives(st, rank, id, v.items, probe); }
      else if k.ArrContains? { ContainsGives(st, rank, id, v.items, probe); }
      else { ArrGives(st, rank, id, v.items, probe); }
    } else if k.Obj? {
      if v.Record? { ObjGives(st, rank, id, v.fields, probe); } else { OneOut(st, rank, Fixed(Reject([])), probe); }
    } else { MixedGives(st, rank, id, v, probe); }
  }

  lemma PlanGives(st: Store, rank: seq<nat>, id: nat, v: Value, probe: bool)
    requires Ranked(st, rank) && id < |st| && AllKnown(st, Plan(st[id], v, probe))
    ensures FirstOut(st, rank, Plan(st[id], v, probe), probe) == Validate(st, rank, id, v, probe)
  {
    var k := st[id].kind; var p := st[id].parent;
    var up := if IsBase(k) then [] else OptJobs(p, v);
    KnownCat(st, up, Own(k, v, probe));
    OwnGives(st, rank, id, v, probe);
    FirstOutCat(st, rank, up, Own(k, v, probe), probe);
    if up != [] { RankFalls(st, rank, id, p.value); OneOut(st, rank, up[0], probe); }
  }

  /** With ranks, and depth for the size of the value, the run ends with the validator's verdict. */
  lemma RunIs(st: Store, rank: seq<nat>, m: nat, id: nat, v: Value, probe: bool, fuel: nat)
    requires Ranked(st, rank) && Bounds(m, rank) && id < |st| && Need(m, rank[id], v) < fuel
    ensures Run(st, id, v, probe, fuel) == Some(Validate(st, rank, id, v, probe))
    decreases fuel, 0, 0
  {
    var jobs := Plan(st[id], v, probe);
    PlanEnough(st, rank, m, id, v, probe, fuel - 1);
    EnoughKnown(st, rank, m, jobs, fuel - 1);
    RunFirstIs(st, rank, m, jobs, probe, fuel - 1);
    PlanGives(st, rank, id, v, probe);
  }

  // ------------------------------------------------------------------------------ theorems

  ghost function MaxRank(rank: seq<nat>): (m: nat)
    ensures Bounds(m, rank)
  {
    if rank == [] then 0
    else
      var n := |rank| - 1; var r := MaxRank(rank[..n]);
      assert forall i :: 0 <= i < n ==> rank[i] == rank[..n][i];
      if rank[n] > r then rank[n] else r
  }

  /** Where ranks exist, every run that may go deep enough ends with the validator's verdict. */
  lemma RunEnds(st: Store, rank: seq<nat>, id: nat, v: Value, probe: bool) returns (depth: nat)
    requires Ranked(st, rank) && id < |st|
    ensures forall fuel :: fuel > depth ==> Run(st, id, v, probe, fuel) == Some(Validate(st, rank, id, v, probe))
  {
    var m := MaxRank(rank);
    depth := Need(m, rank[id], v);
    forall fuel | fuel > depth ensures Run(st, id, v, probe, fuel) == Some(Validate(st, rank, id, v, probe)) {
      RunIs(st, rank, m, id, v, probe, fuel);
    }
  }

  /** The verdict does not depend on which ranks show that validation terminates. */
  lemma RanksDoNotMatter(st: Store, rank: seq<nat>, other: seq<nat>, id: nat, v: Value, probe: bool)
    requires Ranked(st, rank) && Ranked(st, other) && id < |st|
    ensures Validate(st, rank, id, v, probe) == Validate(st, other, id, v, probe)
  {
    var a := RunEnds(st, rank, id, v, probe);
    var b := RunEnds(st, other, id, v, probe);
    assert Run(st, id, v, probe, a + b + 1) == Some(Validate(st, rank, id, v, probe));
  }

  const SELFISH: Store := [Node(None, Leaf(true, _ => false)), Node(None, AllOf([0, 1]))]

  /** The converse fails: an all-of that names itself after a schema that refuses everything goes
      around a cycle of the graph on paper, but its loop is left at the first error. */
  lemma EndsOnCycle(v: Value, probe: bool, fuel: nat)
    requires fuel >= 2
    ensures 1 in Same(SELFISH[1]) && Run(SELFISH, 1, v, probe, fuel) == Some(Reject([]))
  {
    var jobs := Plan(SELFISH[1], v, probe);
    assert jobs[0] == Try(0, v, []) && Same(SELFISH[1])[1] == 1;
    var leaf := Plan(SELFISH[0], v, probe);
    assert leaf == [Fixed(Reject([]))];
    assert RunJob(SELFISH, leaf[0], probe, fuel - 2) == Some(Reject([]));
    assert Run(SELFISH, 0, v, probe, fuel - 1) == Some(Reject([]));
    assert RunJob(SELFISH, jobs[0], probe, fuel - 1) == Some(Reject([]));
  }
}
