/** Insertion-ordered maps as sequences of bindings: what the dictionary is meant to be. */
module OrderedMap {
  import opened Common

  type Entries<V> = seq<(string, V)>

  predicate Mentions<V>(es: Entries<V>, k: string) { exists i :: 0 <= i < |es| && es[i].0 == k }

  /** Each key once. */
  ghost predicate Distinct<V>(es: Entries<V>) {
    forall i, j :: 0 <= i < j < |es| ==> es[i].0 != es[j].0
  }

  function Lookup<V>(es: Entries<V>, k: string): Option<V> {
    if es == [] then None else if es[0].0 == k then Some(es[0].1) else Lookup(es[1..], k)
  }

  /** Rebind a key where it stands; a new key goes to the end. */
  function Put<V>(es: Entries<V>, k: string, v: V): Entries<V> {
    if es == [] then [(k, v)] else if es[0].0 == k then [(k, v)] + es[1..] else [es[0]] + Put(es[1..], k, v)
  }

  function Remove<V>(es: Entries<V>, k: string): Entries<V> {
    if es == [] then [] else if es[0].0 == k then es[1..] else [es[0]] + Remove(es[1..], k)
  }

  /** Put every binding of fs, first to last. */
  function PutAll<V>(es: Entries<V>, fs: Entries<V>): Entries<V>
    decreases |fs|
  {
    if fs == [] then es else PutAll(Put(es, fs[0].0, fs[0].1), fs[1..])
  }

  /** Merge a list of maps into the first, left to right. */
  function MergeAll<V>(es: Entries<V>, maps: seq<Entries<V>>): Entries<V>
    decreases |maps|
  {
    if maps == [] then es else MergeAll(PutAll(es, maps[0]), maps[1..])
  }

  function Keys<V>(es: Entries<V>): seq<string> { seq(|es|, i requires 0 <= i < |es| => es[i].0) }

  // ------------------------------------------------------------------------- laws

  lemma {:induction false} LookupMentions<V>(es: Entries<V>, k: string)
    ensures Lookup(es, k).Some? <==> Mentions(es, k)
  {
    if es != [] {
      LookupMentions(es[1..], k);
      if Mentions(es[1..], k) {
        var i :| 0 <= i < |es[1..]| && es[1..][i].0 == k;
        assert es[i + 1].0 == k;
      }
      if Mentions(es, k) && es[0].0 != k {
        var i :| 0 <= i < |es| && es[i].0 == k;
        assert es[1..][i - 1].0 == k;
      }
    }
  }

  lemma MentionsTail<V>(es: Entries<V>, k: string)
    requires es != []
    ensures Mentions(es, k) <==> es[0].0 == k || Mentions(es[1..], k)
  {
    LookupMentions(es, k);
    LookupMentions(es[1..], k);
  }

  lemma {:induction false} LookupPut<V>(es: Entries<V>, k: string, v: V, j: string)
    ensures Lookup(Put(es, k, v), j) == if j == k then Some(v) else Lookup(es, j)
  {
    if es != [] && es[0].0 != k { LookupPut(es[1..], k, v, j); }
  }

  lemma {:induction false} LookupRemove<V>(es: Entries<V>, k: string, j: string)
    requires Distinct(es)
    ensures Lookup(Remove(es, k), j) == if j == k then None else Lookup(es, j)
  {
    if es != [] {
      if es[0].0 != k { LookupRemove(es[1..], k, j); }
      else { LookupMentions(es[1..], k); }
    }
  }

  /** A key keeps its place when rebound; a new key comes last. */
  lemma {:induction false} KeysPut<V>(es: Entries<V>, k: string, v: V)
    ensures Keys(Put(es, k, v)) == if Mentions(es, k) then Keys(es) else Keys(es) + [k]
  {
    if es != [] && es[0].0 != k {
      KeysPut(es[1..], k, v);
      assert Keys(es) == [es[0].0] + Keys(es[1..]);
      assert Keys(Put(es, k, v)) == [es[0].0] + Keys(Put(es[1..], k, v));
      LookupMentions(es, k); LookupMentions(es[1..], k);
    } else if es != [] {
      assert es[0].0 == k;
      assert Keys(Put(es, k, v)) == Keys(es);
    }
  }

  lemma {:induction false} PutNew<V>(es: Entries<V>, k: string, v: V)
    requires !Mentions(es, k)
    ensures Put(es, k, v) == es + [(k, v)]
  {
    if es != [] {
      assert es[0].0 != k;
      LookupMentions(es, k); LookupMentions(es[1..], k);
      PutNew(es[1..], k, v);
    }
  }

  lemma ConsCat<T>(x: T, a: seq<T>, b: seq<T>)
    ensures [x] + (a + b) == ([x] + a) + b
  {
  }

  lemma {:induction false} PutCat<V>(es: Entries<V>, fs: Entries<V>, k: string, v: V)
    ensures Put(es + fs, k, v) == if Mentions(es, k) then Put(es, k, v) + fs else es + Put(fs, k, v)
  {
    if es == [] {
      assert es + fs == fs;
    } else {
      var tail := es[1..];
      assert (es + fs)[1..] == tail + fs;
      MentionsTail(es, k);
      if es[0].0 != k {
        PutCat(tail, fs, k, v);
        ConsCat(es[0], Put(tail, k, v), fs);
        ConsCat(es[0], tail, Put(fs, k, v));
        assert es == [es[0]] + tail;
      } else {
        ConsCat((k, v), tail, fs);
      }
    }
  }

  lemma {:induction false} RemoveCat<V>(es: Entries<V>, fs: Entries<V>, k: string)
    ensures Remove(es + fs, k) == if Mentions(es, k) then Remove(es, k) + fs else es + Remove(fs, k)
  {
    if es == [] {
      assert es + fs == fs;
    } else {
      var tail := es[1..];
      assert (es + fs)[1..] == tail + fs;
      MentionsTail(es, k);
      if es[0].0 != k {
        RemoveCat(tail, fs, k);
        ConsCat(es[0], Remove(tail, k), fs);
        ConsCat(es[0], tail, Remove(fs, k));
        assert es == [es[0]] + tail;
      }
    }
  }

  lemma {:induction false} PutAllCat<V>(es: Entries<V>, fs: Entries<V>, gs: Entries<V>)
    ensures PutAll(es, fs + gs) == PutAll(PutAll(es, fs), gs)
    decreases |fs|
  {
    if fs == [] { assert fs + gs == gs; }
    else { assert (fs + gs)[1..] == fs[1..] + gs; PutAllCat(Put(es, fs[0].0, fs[0].1), fs[1..], gs); }
  }

  /** Appending fresh distinct bindings one by one is concatenation. */
  lemma {:induction false} PutAllFresh<V>(es: Entries<V>, fs: Entries<V>)
    requires Distinct(es + fs)
    ensures PutAll(es, fs) == es + fs
    decreases |fs|
  {
    if fs != [] {
      var k, v := fs[0].0, fs[0].1;
      forall i | 0 <= i < |es| ensures es[i].0 != k { assert es[i] == (es + fs)[i] && fs[0] == (es + fs)[|es|]; }
      PutNew(es, k, v);
      assert (es + [(k, v)]) + fs[1..] == es + fs;
      PutAllFresh(es + [(k, v)], fs[1..]);
    }
  }

  /** Listing a map and building it again gives the same map in the same order. */
  lemma RebuildIdentity<V>(es: Entries<V>)
    requires Distinct(es)
    ensures PutAll([], es) == es
  {
    assert [] + es == es;
    PutAllFresh([], es);
  }

  /** Later maps win, keys of earlier maps keep their place. */
  lemma {:induction false} LookupPutAll<V>(es: Entries<V>, fs: Entries<V>, k: string)
    requires Distinct(fs)
    ensures Lookup(PutAll(es, fs), k) == if Lookup(fs, k).Some? then Lookup(fs, k) else Lookup(es, k)
    decreases |fs|
  {
    if fs != [] {
      LookupPutAll(Put(es, fs[0].0, fs[0].1), fs[1..], k);
      LookupPut(es, fs[0].0, fs[0].1, k);
      LookupMentions(fs[1..], fs[0].0);
    }
  }
}
