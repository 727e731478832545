/** The protocol of the fiber-root registry and what a scan sees of it. */
module RootRegistry {
  import opened Common
  import opened FiberRoots

  // A bitmap word is the set of its set bits; FiberRoots shows that the word operations are
  // the corresponding set operations.

  /** Slot number word * 64 + bit. */
  datatype Slot = Slot(word: nat, bit: bv64)

  /** Where the thread that holds the registry's mutex stands. */
  datatype Registrar =
    | Free
    | Search(owner: nat, word: nat)       // about to read this bitmap word
    | Full(owner: nat)                    // every word read was full
    | Claimed(owner: nat, slot: Slot)     // slot chosen, its data still the previous owner's
    | Written(owner: nat, slot: Slot)     // data written, bit not yet set

  /** `data` is what the slots hold and `live` the registered handles that were not released
      (with their owners); no guard but the callers' own duty to release only their handle
      reads `live`. */
  datatype Registry = Registry(words: seq<iset<bv64>>, data: map<Slot, nat>, registrar: Registrar, live: map<Slot, nat>)

  datatype Step =
    | Begin(owner: nat)
    | Look(bit: bv64)
    | Grow
    | Write
    | Publish
    | Release(slot: Slot)

  ghost predicate InRange(words: seq<iset<bv64>>, s: Slot) { s.word < |words| && s.bit < 64 }

  ghost predicate Marked(words: seq<iset<bv64>>, s: Slot)
    requires InRange(words, s)
  {
    s.bit in words[s.word]
  }

  ghost predicate Enabled(r: Registry, s: Step) {
    match s {
      case Begin(_) => r.registrar.Free?
      case Look(bit) =>
        r.registrar.Search? && (r.registrar.word < |r.words| && !IsFull(r.words[r.registrar.word]) ==>
                                FirstZero(r.words[r.registrar.word], bit))
      case Grow => r.registrar.Full? && |r.words| < MAX_CHUNKS * CHUNK_WORDS
      case Write => r.registrar.Claimed?
      case Publish => r.registrar.Written? && InRange(r.words, r.registrar.slot)
      case Release(slot) => slot in r.live && InRange(r.words, slot)
    }
  }

  ghost function NewChunk(words: seq<iset<bv64>>): seq<iset<bv64>> { words + seq(CHUNK_WORDS, _ => iset{}) }

  ghost function Next(r: Registry, s: Step): Registry
    requires Enabled(r, s)
  {
    match s {
      case Begin(owner) => r.(registrar := Search(owner, 0))
      case Look(bit) =>
        var o := r.registrar.owner; var w := r.registrar.word;
        if w >= |r.words| then r.(registrar := Full(o))
        else if !IsFull(r.words[w]) then r.(registrar := Claimed(o, Slot(w, bit)))
        else r.(registrar := Search(o, w + 1))
      case Grow =>
        r.(words := NewChunk(r.words), registrar := Claimed(r.registrar.owner, Slot(|r.words|, 0)))
      case Write =>
        r.(data := r.data[r.registrar.slot := r.registrar.owner],
            registrar := Written(r.registrar.owner, r.registrar.slot))
      case Publish =>
        var t := r.registrar.slot;
        r.(words := r.words[t.word := r.words[t.word] + iset{t.bit}], live := r.live[t := r.registrar.owner],
            registrar := Free)
      case Release(t) =>
        r.(words := r.words[t.word := r.words[t.word] - iset{t.bit}], live := r.live - {t})
    }
  }

  ghost predicate Init(r: Registry) { r.words == [] && r.data == map[] && r.registrar == Free && r.live == map[] }

  ghost predicate IsRun(run: seq<Registry>, steps: seq<Step>) {
    && |run| == |steps| + 1 && Init(run[0])
    && forall i :: 0 <= i < |steps| ==> Enabled(run[i], steps[i]) && run[i + 1] == Next(run[i], steps[i])
  }

  // ------------------------------------------------------------------- invariant

  ghost predicate Narrow(word: iset<bv64>) { forall b :: b in word ==> b < 64 }

  /** The set bits are the registered handles. */
  ghost predicate BitsOk(words: seq<iset<bv64>>, live: map<Slot, nat>) {
    && (forall s :: s in live ==> InRange(words, s))
    && (forall s :: InRange(words, s) ==> (Marked(words, s) <==> s in live))
    && (forall k :: 0 <= k < |words| ==> Narrow(words[k]))
  }

  /** Every registered slot holds its own owner's data. */
  ghost predicate DataOk(data: map<Slot, nat>, live: map<Slot, nat>) {
    forall s :: s in live ==> s in data && data[s] == live[s]
  }

  ghost predicate RegistrarOk(r: Registry) {
    match r.registrar {
      case Search(_, w) => w <= |r.words|
      case Claimed(_, s) => InRange(r.words, s) && s !in r.live
      case Written(o, s) => InRange(r.words, s) && s !in r.live && s in r.data && r.data[s] == o
      case _ => true
    }
  }

  ghost predicate Inv(r: Registry) {
    BitsOk(r.words, r.live) && DataOk(r.data, r.live) && RegistrarOk(r)
  }

  lemma PublishBits(words: seq<iset<bv64>>, live: map<Slot, nat>, t: Slot, o: nat)
    requires BitsOk(words, live) && InRange(words, t)
    ensures BitsOk(words[t.word := words[t.word] + iset{t.bit}], live[t := o])
  {
    var after := words[t.word := words[t.word] + iset{t.bit}];
    forall s | InRange(after, s) ensures Marked(after, s) <==> s in live[t := o] {
      assert Marked(words, s) <==> s in live;
    }
  }

  lemma ReleaseBits(words: seq<iset<bv64>>, live: map<Slot, nat>, t: Slot)
    requires BitsOk(words, live) && InRange(words, t)
    ensures BitsOk(words[t.word := words[t.word] - iset{t.bit}], live - {t})
  {
    var after := words[t.word := words[t.word] - iset{t.bit}];
    forall s | InRange(after, s) ensures Marked(after, s) <==> s in live - {t} {
      assert Marked(words, s) <==> s in live;
    }
  }

  lemma GrowBits(words: seq<iset<bv64>>, live: map<Slot, nat>)
    requires BitsOk(words, live)
    ensures BitsOk(NewChunk(words), live)
  {
    var after := NewChunk(words);
    forall s | InRange(after, s) ensures Marked(after, s) <==> s in live {
      if s.word < |words| { assert Marked(words, s) <==> s in live; }
      else { assert after[s.word] == iset{}; }
    }
  }

  lemma InvLook(r: Registry, bit: bv64)
    requires Inv(r) && Enabled(r, Look(bit))
    ensures Inv(Next(r, Look(bit)))
  {
    var w := r.registrar.word;
    if w < |r.words| && !IsFull(r.words[w]) { assert !Marked(r.words, Slot(w, bit)); }
  }

  lemma InvGrow(r: Registry)
    requires Inv(r) && Enabled(r, Grow)
    ensures Inv(Next(r, Grow))
  {
    GrowBits(r.words, r.live);
    assert Slot(|r.words|, 0) !in r.live;
  }

  lemma InvPublish(r: Registry)
    requires Inv(r) && Enabled(r, Publish)
    ensures Inv(Next(r, Publish))
  {
    PublishBits(r.words, r.live, r.registrar.slot, r.registrar.owner);
  }

  lemma InvRelease(r: Registry, t: Slot)
    requires Inv(r) && Enabled(r, Release(t))
    ensures Inv(Next(r, Release(t)))
  {
    ReleaseBits(r.words, r.live, t);
    assert |Next(r, Release(t)).words| == |r.words|;
  }

  lemma InvNext(r: Registry, s: Step)
    requires Inv(r) && Enabled(r, s)
    ensures Inv(Next(r, s))
  {
    match s {
      case Look(bit) => InvLook(r, bit);
      case Grow => InvGrow(r);
      case Publish => InvPublish(r);
      case Release(t) => InvRelease(r, t);
      case _ =>
    }
  }

  lemma {:induction false} InvRun(run: seq<Registry>, steps: seq<Step>, n: nat)
    requires IsRun(run, steps) && n < |run|
    ensures Inv(run[n])
  {
    if n > 0 { InvRun(run, steps, n - 1); InvNext(run[n - 1], steps[n - 1]); }
  }

  // -------------------------------------------------------------------- theorems

  /** Between any two steps the set bits are exactly the registered handles, each slot with a
      set bit holds the data of its present owner, and the handle a registration is about to
      return differs from all registered ones. */
  lemma ScanSafe(run: seq<Registry>, steps: seq<Step>, n: nat)
    requires IsRun(run, steps) && n < |run|
    ensures forall s :: InRange(run[n].words, s) && Marked(run[n].words, s) ==>
              s in run[n].live && s in run[n].data && run[n].data[s] == run[n].live[s]
    ensures forall s :: s in run[n].live ==> InRange(run[n].words, s) && Marked(run[n].words, s)
    ensures run[n].registrar.Claimed? || run[n].registrar.Written? ==> run[n].registrar.slot !in run[n].live
  {
    InvRun(run, steps, n);
  }

  /** The search is past the word of s. */
  predicate IsPast(r: Registrar, s: Slot) { r.Full? || (r.Search? && r.word > s.word) }

  /** One search, begun at i, is under way in every state from i to n. */
  ghost predicate Searching(run: seq<Registry>, i: nat, n: nat)
    requires n < |run|
  {
    && i <= n && run[i].registrar.Search? && run[i].registrar.word == 0
    && forall k :: i <= k <= n ==> run[k].registrar.Search? || run[k].registrar.Full?
  }

  /** Between i and n the slot was released behind the search. */
  ghost predicate FreedBehind(run: seq<Registry>, steps: seq<Step>, i: nat, n: nat, s: Slot)
    requires n < |run| == |steps| + 1
  {
    exists k :: i <= k < n && steps[k] == Release(s) && IsPast(run[k].registrar, s)
  }

  lemma LookKeeps(r: Registry, step: Step, s: Slot)
    requires Inv(r) && Enabled(r, step) && (r.registrar.Search? || r.registrar.Full?)
    requires Next(r, step).registrar.Search? || Next(r, step).registrar.Full?
    requires InRange(r.words, s)
    ensures var q := Next(r, step);
            && InRange(q.words, s) && (IsPast(r.registrar, s) ==> IsPast(q.registrar, s))
            && (s in q.live <==> s in r.live && step != Release(s))
            && (step.Release? ==> q.registrar == r.registrar)
            && (!IsPast(r.registrar, s) && IsPast(q.registrar, s) ==> s in r.live)
  {
    if step.Look? && r.registrar.word == s.word { assert Marked(r.words, s) <==> s in r.live; }
  }

  /** Of the slots a search has passed, those are free that were released behind it. */
  lemma {:induction false} SearchPasses(run: seq<Registry>, steps: seq<Step>, i: nat, n: nat, s: Slot)
    requires IsRun(run, steps) && n < |run| && Searching(run, i, n)
    requires InRange(run[n].words, s) && IsPast(run[n].registrar, s)
    ensures s !in run[n].live <==> FreedBehind(run, steps, i, n, s)
    decreases n
  {
    var k := n - 1;
    InvRun(run, steps, k);
    assert Enabled(run[k], steps[k]) && run[k + 1] == Next(run[k], steps[k]);
    assert InRange(run[k].words, s);
    LookKeeps(run[k], steps[k], s);
    if IsPast(run[k].registrar, s) { SearchPasses(run, steps, i, k, s); }
    else { NotPastBefore(run, steps, i, k, s); }
    if FreedBehind(run, steps, i, k, s) { FreedLater(run, steps, i, k, n, s); }
  }

  lemma FreedLater(run: seq<Registry>, steps: seq<Step>, i: nat, k: nat, n: nat, s: Slot)
    requires k <= n < |run| == |steps| + 1 && FreedBehind(run, steps, i, k, s)
    ensures FreedBehind(run, steps, i, n, s)
  {
    var m :| i <= m < k && steps[m] == Release(s) && IsPast(run[m].registrar, s);
  }

  /** A search only moves on. */
  lemma {:induction false} NotPastBefore(run: seq<Registry>, steps: seq<Step>, i: nat, n: nat, s: Slot)
    requires IsRun(run, steps) && n < |run| && Searching(run, i, n) && InRange(run[n].words, s)
    requires !IsPast(run[n].registrar, s)
    ensures !FreedBehind(run, steps, i, n, s)
    decreases n
  {
    if i < n {
      var k := n - 1;
      InvRun(run, steps, k);
      assert Enabled(run[k], steps[k]) && run[k + 1] == Next(run[k], steps[k]);
      assert InRange(run[k].words, s);
      LookKeeps(run[k], steps[k], s);
      NotPastBefore(run, steps, i, k, s);
    }
  }

  /** When a registration adds a chunk, a slot is free exactly if it was released during the
      search and behind it: every slot that was free when the search began, or became free
      ahead of it, is used before the registry grows. */
  lemma GrowsOnlyWhenFull(run: seq<Registry>, steps: seq<Step>, i: nat, n: nat, s: Slot)
    requires IsRun(run, steps) && n < |steps| && steps[n] == Grow && Searching(run, i, n)
    requires InRange(run[n].words, s)
    ensures s !in run[n].live <==> FreedBehind(run, steps, i, n, s)
  {
    assert Enabled(run[n], steps[n]);
    SearchPasses(run, steps, i, n, s);
  }

  predicate Before(s: Slot, t: Slot) { s.word < t.word || (s.word == t.word && s.bit < t.bit) }

  /** A search that ends in a slot ends in the first free one, but for the slots released behind
      it during the search. */
  lemma FirstFreeSlot(run: seq<Registry>, steps: seq<Step>, i: nat, n: nat, s: Slot)
    requires IsRun(run, steps) && n < |steps| && steps[n].Look? && Searching(run, i, n)
    requires run[n + 1].registrar.Claimed? && InRange(run[n].words, s) && Before(s, run[n + 1].registrar.slot)
    ensures s !in run[n].live <==> FreedBehind(run, steps, i, n, s)
  {
    assert Enabled(run[n], steps[n]) && run[n + 1] == Next(run[n], steps[n]);
    InvRun(run, steps, n);
    if IsPast(run[n].registrar, s) { SearchPasses(run, steps, i, n, s); }
    else {
      assert Marked(run[n].words, s);
      NotPastBefore(run, steps, i, n, s);
    }
  }

  // ------------------------------------------------------------------------ scan

  /** Visited so far: exactly the set bits of the first n words, each once. */
  ghost predicate Visited(bitmap: seq<iset<bv64>>, n: nat, slots: seq<Slot>)
    requires n <= |bitmap|
  {
    NoDup(slots) && forall s :: s in slots <==> s.word < n && s.bit in bitmap[s.word]
  }

  ghost function Bitmap(words: seq<bv64>): seq<iset<bv64>> {
    seq(|words|, i requires 0 <= i < |words| => Ones(words[i]))
  }

  lemma VisitWord(bitmap: seq<iset<bv64>>, n: nat, slots: seq<Slot>, bits: seq<bv64>, more: seq<Slot>)
    requires n < |bitmap| && Visited(bitmap, n, slots) && Splits(bitmap[n], bits, iset{})
    requires |more| == |bits| && forall i :: 0 <= i < |bits| ==> more[i] == Slot(n, bits[i])
    ensures Visited(bitmap, n + 1, slots + more)
  {
    var all := slots + more;
    forall s ensures s in all <==> s.word < n + 1 && s.bit in bitmap[s.word] {
      if s in more { var i :| 0 <= i < |more| && more[i] == s; assert bits[i] in bits; }
      if s.word == n && s.bit in bitmap[n] {
        var i :| 0 <= i < |bits| && bits[i] == s.bit;
        assert more[i] == s;
      }
    }
    forall i, j | 0 <= i < j < |all| ensures all[i] != all[j] {
      if j >= |slots| {
        assert all[j] == more[j - |slots|];
        if i >= |slots| { assert bits[i - |slots|] != bits[j - |slots|]; }
        else { assert all[i] in slots; }
      }
    }
  }

  /** push_fiber_roots: visits every set bit of the words in use exactly once. */
  method Scan(words: array<bv64>, total: nat) returns (slots: seq<Slot>)
    requires total <= words.Length
    ensures Visited(Bitmap(words[..]), total, slots)
  {
    slots := [];
    ghost var bitmap := Bitmap(words[..]);
    var w := 0;
    while w < total
      invariant 0 <= w <= total && Visited(bitmap, w, slots)
    {
      var bits := ScanWord(words[w]);
      var more := seq(|bits|, i requires 0 <= i < |bits| => Slot(w, bits[i]));
      VisitWord(bitmap, w, slots, bits, more);
      slots := slots + more;
      w := w + 1;
    }
  }

  /** A scan between any two steps visits each registered handle once and nothing else, and
      finds its owner's data there. */
  lemma ScanExact(run: seq<Registry>, steps: seq<Step>, n: nat, slots: seq<Slot>)
    requires IsRun(run, steps) && n < |run| && Visited(run[n].words, |run[n].words|, slots)
    ensures NoDup(slots) && forall s :: s in slots <==> s in run[n].live
    ensures forall i :: 0 <= i < |slots| ==> slots[i] in run[n].data && run[n].data[slots[i]] == run[n].live[slots[i]]
  {
    InvRun(run, steps, n);
    forall s ensures s in slots <==> s in run[n].live {
      assert s in slots ==> Narrow(run[n].words[s.word]);
      if InRange(run[n].words, s) { assert Marked(run[n].words, s) <==> s in run[n].live; }
    }
    forall i | 0 <= i < |slots| ensures slots[i] in run[n].live { assert slots[i] in slots; }
  }
}
