/**
 The registry of fiber stacks that the garbage collector scans: slots in fixed-size chunks with a
 bitmap of 64-bit words.  Registration runs under a mutex, in steps; releases clear a bit without
 the mutex, and a scan may stop the world between any two steps.
 */
module FiberRoots {
  import opened Common

  const ALL_ONES: bv64 := 0xFFFF_FFFF_FFFF_FFFF
  const CHUNK_WORDS := 16
  const MAX_CHUNKS := 256

  // ------------------------------------------------------------------------ words

  predicate Bit(w: bv64, b: bv64)
    requires b < 64
  {
    (w >> b) & 1 == 1
  }

  /** No bit below b is set. */
  predicate LowClear(w: bv64, b: bv64)
    requires b <= 64
  {
    w & ((1 << b) - 1) == 0
  }

  lemma SetBit(w: bv64, b: bv64, i: bv64)
    requires b < 64 && i < 64
    ensures Bit(w | (1 << b), i) == (i == b || Bit(w, i))
  {
  }

  lemma ClearBit(w: bv64, b: bv64, i: bv64)
    requires b < 64 && i < 64
    ensures Bit(w & !(1 << b), i) == (i != b && Bit(w, i))
  {
  }

  /** w & (w - 1) clears exactly the lowest set bit. */
  lemma LowestIs(w: bv64, b: bv64)
    requires b < 64 && Bit(w, b) && LowClear(w, b)
    ensures w & (w - 1) == w & !(1 << b)
  {
  }

  lemma LowClearStep(w: bv64, b: bv64)
    requires b < 64 && LowClear(w, b) && !Bit(w, b)
    ensures LowClear(w, b + 1)
  {
  }

  lemma LowClearZero(w: bv64)
    requires LowClear(w, 64)
    ensures w == 0
  {
  }

  lemma LowClearBit(w: bv64, b: bv64, i: bv64)
    requires i < b <= 64 && LowClear(w, b)
    ensures !Bit(w, i)
  {
  }

  lemma Shrinks(b: bv64)
    requires b < 64
    ensures 64 - (b + 1) < 64 - b && b + 1 <= 64
  {
  }

  /** b is the lowest set bit of w. */
  predicate IsLowest(w: bv64, b: bv64) { b < 64 && Bit(w, b) && LowClear(w, b) }

  /** Count trailing zeros. */
  method Ctz(w: bv64) returns (b: bv64)
    requires w != 0
    ensures IsLowest(w, b)
  {
    b := 0;
    while !Bit(w, b)
      invariant b < 64 && LowClear(w, b)
      decreases 64 - b
    {
      LowClearStep(w, b);
      Shrinks(b);
      if b == 63 { LowClearZero(w); }
      b := b + 1;
    }
  }

  // ------------------------------------------------------------- words as bit sets

  /** The set bits of a word. */
  ghost function Ones(w: bv64): iset<bv64> { iset b: bv64 | b < 64 && Bit(w, b) }

  /** Every bit is set. */
  ghost predicate IsFull(ones: iset<bv64>) { forall b: bv64 :: b < 64 ==> b in ones }

  /** b is the lowest bit that is not set. */
  ghost predicate FirstZero(ones: iset<bv64>, b: bv64) { b < 64 && b !in ones && forall i: bv64 :: i < b ==> i in ones }

  lemma OnesSet(w: bv64, b: bv64)
    requires b < 64
    ensures Ones(w | (1 << b)) == Ones(w) + iset{b}
  {
    forall i: bv64 | i < 64 ensures Bit(w | (1 << b), i) == (i == b || Bit(w, i)) { SetBit(w, b, i); }
  }

  lemma OnesClear(w: bv64, b: bv64)
    requires b < 64
    ensures Ones(w & !(1 << b)) == Ones(w) - iset{b}
  {
    forall i: bv64 | i < 64 ensures Bit(w & !(1 << b), i) == (i != b && Bit(w, i)) { ClearBit(w, b, i); }
  }

  lemma OnesLowest(w: bv64, b: bv64)
    requires IsLowest(w, b)
    ensures b in Ones(w) && Ones(w & (w - 1)) == Ones(w) - iset{b}
  {
    LowestIs(w, b);
    OnesClear(w, b);
  }

  lemma ComplementBit(w: bv64, b: bv64)
    requires b < 64
    ensures Bit(!w, b) == !Bit(w, b)
  {
  }

  /** The lowest set bit of the complement is the first zero. */
  lemma ComplementLowest(w: bv64, b: bv64)
    requires IsLowest(!w, b)
    ensures FirstZero(Ones(w), b)
  {
    ComplementBit(w, b);
    forall i: bv64 | i < b ensures i in Ones(w) { LowClearBit(!w, b, i); ComplementBit(w, i); }
  }

  lemma FullBits(b: bv64)
    requires b < 64
    ensures Bit(ALL_ONES, b)
  {
  }

  lemma OnesFull()
    ensures IsFull(Ones(ALL_ONES))
  {
    forall b: bv64 | b < 64 ensures b in Ones(ALL_ONES) { FullBits(b); }
  }

  // --------------------------------------------------------------------- the loops

  /** The first free bit of one word, or none. */
  method FreeBit(w: bv64) returns (r: Option<bv64>)
    ensures r.Some? ==> FirstZero(Ones(w), r.value)
    ensures r.None? ==> IsFull(Ones(w))
  {
    if w == ALL_ONES {
      OnesFull();
      r := None;
    } else {
      ComplementNonzero(w);
      var bit := Ctz(!w);
      ComplementLowest(w, bit);
      r := Some(bit);
    }
  }

  /** The search for a free slot over the words in use: the first free bit, or none at all. */
  method FindFree(words: array<bv64>, total: nat) returns (word: nat, bit: Option<bv64>)
    requires total <= words.Length
    ensures bit.Some? ==> word < total && FirstZero(Ones(words[word]), bit.value)
    ensures bit.None? ==> word == total
    ensures forall k :: 0 <= k < word <= total ==> IsFull(Ones(words[k]))
  {
    word := 0;
    while word < total
      invariant 0 <= word <= total
      invariant forall k :: 0 <= k < word ==> IsFull(Ones(words[k]))
    {
      bit := FreeBit(words[word]);
      if bit.Some? { return; }
      word := word + 1;
    }
    bit := None;
  }

  lemma ComplementNonzero(w: bv64)
    requires w != ALL_ONES
    ensures !w != 0
  {
  }

  /** The lowest bit of a word, and the word without it. */
  method TakeLowest(w: bv64) returns (b: bv64, rest: bv64)
    requires w != 0
    ensures rest < w && b in Ones(w) && Ones(rest) == Ones(w) - iset{b}
  {
    b := Ctz(w);
    OnesLowest(w, b);
    Smaller(w);
    rest := w & (w - 1);
  }

  /** What is still to be visited and what was visited make up the word. */
  ghost predicate Splits(all: iset<bv64>, seen: seq<bv64>, left: iset<bv64>) {
    NoDup(seen) && (forall b :: b in all <==> b in seen || b in left) && (forall b :: b in seen ==> b !in left)
  }

  lemma SplitsStep(all: iset<bv64>, seen: seq<bv64>, left: iset<bv64>, b: bv64)
    requires Splits(all, seen, left) && b in left
    ensures Splits(all, seen + [b], left - iset{b})
  {
  }

  /** The bits of one word, lowest first, as a scan visits them. */
  method ScanWord(word: bv64) returns (bits: seq<bv64>)
    ensures Splits(Ones(word), bits, iset{})
  {
    bits := [];
    var w := word;
    while w != 0
      invariant Splits(Ones(word), bits, Ones(w))
      decreases w
    {
      var b, rest := TakeLowest(w);
      SplitsStep(Ones(word), bits, Ones(w), b);
      bits := bits + [b];
      w := rest;
    }
    OnesZero();
  }

  lemma Smaller(w: bv64)
    requires w != 0
    ensures w & (w - 1) < w
  {
  }

  lemma OnesZero()
    ensures Ones(0) == iset{}
  {
    forall b: bv64 | b < 64 ensures !Bit(0, b) { }
  }
}
