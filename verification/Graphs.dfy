/** Finite graphs: a ranking that falls along every edge exists exactly when there is no cycle. */
module Graphs {
  /** The successors of each node. */
  type Graph = seq<seq<nat>>

  ghost predicate IsGraph(g: Graph) {
    forall i, k :: 0 <= i < |g| && 0 <= k < |g[i]| ==> g[i][k] < |g|
  }

  ghost predicate Falls(g: Graph, rank: seq<nat>) {
    IsGraph(g) && |rank| == |g| && forall i, k :: 0 <= i < |g| && 0 <= k < |g[i]| ==> rank[g[i][k]] < rank[i]
  }

  predicate Edge(g: Graph, i: nat, j: nat) { i < |g| && j in g[i] }

  ghost predicate Walk(g: Graph, path: seq<nat>) {
    path != [] && (forall i :: 0 <= i < |path| ==> path[i] < |g|)
    && forall i :: 0 <= i < |path| - 1 ==> Edge(g, path[i], path[i + 1])
  }

  ghost predicate NoCycle(g: Graph) {
    forall path :: Walk(g, path) && |path| > 1 ==> path[0] != path[|path| - 1]
  }

  /** The longest walk from i with at most n edges. */
  ghost function Height(g: Graph, i: nat, n: nat): nat
    requires IsGraph(g) && i < |g|
    decreases n, 1, 0
  {
    if n == 0 then 0 else Best(g, g[i], n)
  }

  ghost function Best(g: Graph, ids: seq<nat>, n: nat): nat
    requires IsGraph(g) && n > 0 && forall k :: 0 <= k < |ids| ==> ids[k] < |g|
    decreases n, 0, |ids|
  {
    if ids == [] then 0
    else
      var h := 1 + Height(g, ids[|ids| - 1], n - 1); var b := Best(g, ids[..|ids| - 1], n);
      if h > b then h else b
  }

  lemma {:induction false} BestBounds(g: Graph, ids: seq<nat>, n: nat, k: nat)
    requires IsGraph(g) && n > 0 && (forall j :: 0 <= j < |ids| ==> ids[j] < |g|) && k < |ids|
    ensures Best(g, ids, n) >= 1 + Height(g, ids[k], n - 1)
  {
    if k < |ids| - 1 { BestBounds(g, ids[..|ids| - 1], n, k); }
  }

  lemma {:induction false} BestAttained(g: Graph, ids: seq<nat>, n: nat) returns (k: nat)
    requires IsGraph(g) && n > 0 && (forall j :: 0 <= j < |ids| ==> ids[j] < |g|) && Best(g, ids, n) > 0
    ensures k < |ids| && Best(g, ids, n) == 1 + Height(g, ids[k], n - 1)
  {
    if Best(g, ids, n) == 1 + Height(g, ids[|ids| - 1], n - 1) { k := |ids| - 1; }
    else { k := BestAttained(g, ids[..|ids| - 1], n); }
  }

  /** A walk of exactly that many edges exists. */
  lemma {:induction false} HeightWalk(g: Graph, i: nat, n: nat) returns (path: seq<nat>)
    requires IsGraph(g) && i < |g|
    ensures Walk(g, path) && path[0] == i && |path| == 1 + Height(g, i, n)
    decreases n
  {
    path := [i];
    if n > 0 && Height(g, i, n) > 0 {
      var k := BestAttained(g, g[i], n);
      var rest := HeightWalk(g, g[i][k], n - 1);
      path := [i] + rest;
      assert forall t :: 0 <= t < |rest| ==> path[t + 1] == rest[t];
    }
  }

  /** Allowing more edges stops mattering once the longest walk is reached. */
  lemma {:induction false} HeightSettles(g: Graph, i: nat, n: nat)
    requires IsGraph(g) && i < |g|
    ensures Height(g, i, n + 1) <= n ==> Height(g, i, n + 1) <= Height(g, i, n)
    decreases n
  {
    if Height(g, i, n + 1) > 0 && n > 0 {
      var k := BestAttained(g, g[i], n + 1);
      HeightSettles(g, g[i][k], n - 1);
      BestBounds(g, g[i], n, k);
    }
  }

  /** Among more than m numbers below m, two are equal. */
  lemma {:induction false} Pigeonhole(path: seq<nat>, m: nat) returns (i: nat, j: nat)
    requires |path| > m && forall k :: 0 <= k < |path| ==> path[k] < m
    ensures i < j < |path| && path[i] == path[j]
    decreases m
  {
    var n := |path| - 1;
    if k :| 0 <= k < n && path[k] == path[n] { return k, n; }
    if path[n] == m - 1 {
      i, j := Pigeonhole(path[..n], m - 1);
    } else {
      var small := seq(n, k requires 0 <= k < n => if path[k] == m - 1 then path[n] else path[k]);
      i, j := Pigeonhole(small, m - 1);
    }
  }

  lemma SubWalk(g: Graph, path: seq<nat>, i: nat, j: nat)
    requires Walk(g, path) && i < j < |path|
    ensures Walk(g, path[i..j + 1])
  {
    var part := path[i..j + 1];
    forall k | 0 <= k < |part| - 1 ensures Edge(g, part[k], part[k + 1]) {
      assert part[k] == path[i + k] && part[k + 1] == path[(i + k) + 1];
    }
  }

  lemma ShortWalks(g: Graph, path: seq<nat>)
    requires Walk(g, path) && NoCycle(g)
    ensures |path| <= |g|
  {
    if |path| > |g| {
      var i, j := Pigeonhole(path, |g|);
      SubWalk(g, path, i, j);
    }
  }

  lemma RanksExist(g: Graph) returns (rank: seq<nat>)
    requires IsGraph(g) && NoCycle(g)
    ensures Falls(g, rank)
  {
    var n := |g|;
    rank := seq(n, i requires 0 <= i < n => Height(g, i, n));
    forall i, k | 0 <= i < n && 0 <= k < |g[i]| ensures rank[g[i][k]] < rank[i] { HeightFalls(g, i, k); }
  }

  lemma HeightFalls(g: Graph, i: nat, k: nat)
    requires IsGraph(g) && NoCycle(g) && i < |g| && k < |g[i]|
    ensures Height(g, g[i][k], |g|) < Height(g, i, |g|)
  {
    var n := |g|;
    BestBounds(g, g[i], n + 1, k);
    HeightSettles(g, i, n);
    var path := HeightWalk(g, i, n + 1);
    ShortWalks(g, path);
  }

  lemma {:induction false} RankOnWalk(g: Graph, rank: seq<nat>, path: seq<nat>)
    requires Falls(g, rank) && Walk(g, path)
    ensures rank[path[|path| - 1]] + |path| - 1 <= rank[path[0]]
  {
    if |path| > 1 {
      var n := |path| - 1;
      RankOnWalk(g, rank, path[..n]);
      assert Edge(g, path[n - 1], path[n - 1 + 1]);
      var k :| 0 <= k < |g[path[n - 1]]| && g[path[n - 1]][k] == path[n];
    }
  }

  lemma RanksNeedNoCycle(g: Graph, rank: seq<nat>)
    requires Falls(g, rank)
    ensures NoCycle(g)
  {
    forall path | Walk(g, path) && |path| > 1 ensures path[0] != path[|path| - 1] { RankOnWalk(g, rank, path); }
  }
}
