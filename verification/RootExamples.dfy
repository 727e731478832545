/** A run in which the registry grows although a slot is free. */
module RootExamples {
  import opened FiberRoots
  import opened RootRegistry

  ghost function Last(run: seq<Registry>): Registry
    requires run != []
  { run[|run| - 1] }

  lemma Add(run: seq<Registry>, steps: seq<Step>, step: Step) returns (run': seq<Registry>, steps': seq<Step>)
    requires IsRun(run, steps) && Enabled(Last(run), step)
    ensures IsRun(run', steps') && run' == run + [Next(Last(run), step)] && steps' == steps + [step]
  {
    run', steps' := run + [Next(Last(run), step)], steps + [step];
    forall i | 0 <= i < |steps'| ensures Enabled(run'[i], steps'[i]) && run'[i + 1] == Next(run'[i], steps'[i]) {
      if i < |steps| { assert run'[i] == run[i] && run'[i + 1] == run[i + 1] && steps'[i] == steps[i]; }
    }
  }

  ghost predicate FullFrom(words: seq<iset<bv64>>, v: nat, w: nat) {
    v <= w <= |words| && forall k :: v <= k < w ==> IsFull(words[k])
  }

  /** A search passes full words. */
  lemma {:induction false} WalkOn(run: seq<Registry>, steps: seq<Step>, i: nat, w: nat)
    returns (run': seq<Registry>, steps': seq<Step>)
    requires IsRun(run, steps) && Searching(run, i, |run| - 1)
    requires var r := Last(run); r.registrar.Search? && FullFrom(r.words, r.registrar.word, w)
    ensures IsRun(run', steps') && run <= run' && Searching(run', i, |run'| - 1)
    ensures Last(run') == Last(run).(registrar := Search(Last(run).registrar.owner, w))
    decreases w - Last(run).registrar.word
  {
    run', steps' := run, steps;
    if Last(run).registrar.word < w {
      run', steps' := Add(run, steps, Look(0));
      run', steps' := WalkOn(run', steps', i, w);
    }
  }

  predicate Under(c: bv64, b: bv64) { c < b }

  ghost function Below(b: bv64): iset<bv64> { iset c: bv64 | Under(c, b) }

  /** One chunk in use; its first w words are full and of the next one the lowest b bits are set. */
  ghost predicate Filled(r: Registry, w: nat, b: bv64) {
    && |r.words| == CHUNK_WORDS && r.registrar == Free && FullFrom(r.words, 0, w)
    && forall k :: w <= k < CHUNK_WORDS ==> r.words[k] == if k == w then Below(b) else iset{}
  }

  lemma BelowNext(b: bv64)
    requires b < 64
    ensures Below(b) + iset{b} == Below(b + 1) && FirstZero(Below(b), b) && !IsFull(Below(b))
  {
  }

  lemma RegisterOne(run: seq<Registry>, steps: seq<Step>, w: nat, b: bv64)
    returns (run': seq<Registry>, steps': seq<Step>)
    requires IsRun(run, steps) && w < CHUNK_WORDS && b < 64 && Filled(Last(run), w, b)
    ensures IsRun(run', steps') && Filled(Last(run'), w, b + 1)
  {
    BelowNext(b);
    run', steps' := Add(run, steps, Begin(0));
    run', steps' := WalkOn(run', steps', |run|, w);
    run', steps' := Add(run', steps', Look(b));
    run', steps' := Add(run', steps', Write);
    run', steps' := Add(run', steps', Publish);
  }

  lemma {:induction false} FillWord(run: seq<Registry>, steps: seq<Step>, w: nat, b: bv64)
    returns (run': seq<Registry>, steps': seq<Step>)
    requires IsRun(run, steps) && w < CHUNK_WORDS && b <= 64 && Filled(Last(run), w, b)
    ensures IsRun(run', steps') && Filled(Last(run'), w + 1, 0)
    decreases 64 - b
  {
    run', steps' := run, steps;
    if b < 64 {
      Shrinks(b);
      run', steps' := RegisterOne(run, steps, w, b);
      run', steps' := FillWord(run', steps', w, b + 1);
    } else {
      assert IsFull(Below(b)) && Below(0) == iset{};
    }
  }

  lemma {:induction false} FillChunk(run: seq<Registry>, steps: seq<Step>, w: nat)
    returns (run': seq<Registry>, steps': seq<Step>)
    requires IsRun(run, steps) && w <= CHUNK_WORDS && Filled(Last(run), w, 0)
    ensures IsRun(run', steps') && Filled(Last(run'), CHUNK_WORDS, 0)
    decreases CHUNK_WORDS - w
  {
    run', steps' := run, steps;
    if w < CHUNK_WORDS {
      run', steps' := FillWord(run, steps, w, 0);
      run', steps' := FillChunk(run', steps', w + 1);
    }
  }

  /** The first registration adds the first chunk. */
  lemma FirstChunk() returns (run: seq<Registry>, steps: seq<Step>)
    ensures IsRun(run, steps) && Filled(Last(run), 0, 1)
  {
    run, steps := [Registry([], map[], Free, map[])], [];
    run, steps := Add(run, steps, Begin(0));
    run, steps := Add(run, steps, Look(0));
    run, steps := Add(run, steps, Grow);
    run, steps := Add(run, steps, Write);
    run, steps := Add(run, steps, Publish);
    assert Below(1) == iset{0};
  }

  /** A chunk is full, a registration searches it in vain, the first slot is released behind the
      search, and a second chunk is added although that slot is free. */
  lemma GrowsBesideFree() returns (run: seq<Registry>, steps: seq<Step>, i: nat, n: nat)
    ensures IsRun(run, steps) && n < |steps| && steps[n] == Grow && Searching(run, i, n)
    ensures InRange(run[n].words, Slot(0, 0)) && Slot(0, 0) !in run[n].live
  {
    run, steps := FirstChunk();
    run, steps := FillWord(run, steps, 0, 1);
    run, steps := FillChunk(run, steps, 1);
    i := |run|;
    run, steps := Add(run, steps, Begin(0));
    run, steps := WalkOn(run, steps, i, CHUNK_WORDS);
    run, steps := Add(run, steps, Look(0));
    InvRun(run, steps, |run| - 1);
    assert Marked(Last(run).words, Slot(0, 0));
    run, steps := Add(run, steps, Release(Slot(0, 0)));
    n := |steps|;
    run, steps := Add(run, steps, Grow);
  }
}
