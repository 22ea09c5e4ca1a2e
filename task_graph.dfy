/**
 * The task-only dependency graph the executor and the crew builder derive from
 * an OAG, a deterministic topological order over it, and the wave partition.
 * The graph is a list of node ids and a set of edges (a DiGraph keeps at most
 * one edge per ordered pair).
 */
module TaskGraph {
  import opened Wrappers
  import opened OagSchema
  import opened Seqs

  datatype DiGraph<T(==)> = DiGraph(nodes: seq<T>, edges: set<(T, T)>)

  ghost predicate Distinct<T>(s: seq<T>) {
    forall i, j :: 0 <= i < j < |s| ==> s[i] != s[j]
  }

  /** Node ids are distinct and every edge joins two nodes of the graph. */
  ghost predicate WellFormed<T>(g: DiGraph<T>) {
    Distinct(g.nodes) && forall e :: e in g.edges ==> e.0 in g.nodes && e.1 in g.nodes
  }

  /** `g.predecessors(n)` */
  function Preds<T(==,!new)>(g: DiGraph<T>, n: T): (r: set<T>)
    ensures forall p :: p in r <==> (p, n) in g.edges
  {
    set e | e in g.edges && e.1 == n :: e.0
  }

  /** `_build_execution_graph`: one node per task, and an edge for every OAG edge whose two
      endpoints are tasks. The crew builder's `_order_tasks` builds the same graph. */
  method BuildExecutionGraph(taskIds: seq<string>, edges: seq<Edge>) returns (g: DiGraph<string>)
    ensures g.nodes == taskIds
    ensures forall p, q :: (p, q) in g.edges <==>
      p in taskIds && q in taskIds && exists e :: e in edges && e.fromId == p && e.toId == q
  {
    g := DiGraph(taskIds, {});
    var i := 0;
    while i < |edges|
      invariant 0 <= i <= |edges|
      invariant g.nodes == taskIds
      invariant forall p, q :: (p, q) in g.edges <==>
        p in taskIds && q in taskIds && exists k :: 0 <= k < i && edges[k].fromId == p && edges[k].toId == q
    {
      var e := edges[i];
      if e.fromId in taskIds && e.toId in taskIds {
        g := g.(edges := g.edges + {(e.fromId, e.toId)});
      }
      i := i + 1;
    }
  }

  lemma BuiltGraphWellFormed(taskIds: seq<string>, edges: seq<Edge>, g: DiGraph<string>)
    requires Distinct(taskIds) && g.nodes == taskIds
    requires forall p, q :: (p, q) in g.edges ==> p in taskIds && q in taskIds
    ensures WellFormed(g)
  {
  }

  /** No node of `pending` has an edge into `n`. */
  predicate NoPredIn<T(==,!new)>(edges: set<(T, T)>, n: T, pending: seq<T>) {
    forall m :: m in pending ==> (m, n) !in edges
  }

  /** The first index at or after `from` whose node has no predecessor in `pending`. */
  function FirstFree<T(==,!new)>(pending: seq<T>, edges: set<(T, T)>, from: nat): (r: Option<nat>)
    requires from <= |pending|
    ensures r.Some? ==> from <= r.value < |pending| && NoPredIn(edges, pending[r.value], pending)
    ensures r.None? ==> forall i :: from <= i < |pending| ==> !NoPredIn(edges, pending[i], pending)
    decreases |pending| - from
  {
    if from == |pending| then None
    else if NoPredIn(edges, pending[from], pending) then Some(from)
    else FirstFree(pending, edges, from + 1)
  }

  function RemoveAt<T(==,!new)>(s: seq<T>, i: nat): (r: seq<T>)
    requires i < |s|
    ensures |r| == |s| - 1
  {
    s[..i] + s[i + 1..]
  }

  lemma RemoveAtMultiset<T(!new)>(s: seq<T>, i: nat)
    requires i < |s|
    ensures multiset(s) == multiset(RemoveAt(s, i)) + multiset{s[i]}
  {
    assert s == s[..i] + [s[i]] + s[i + 1..];
  }

  /** A deterministic topological order of `pending`: repeatedly emit the first node no
      pending node points to. `None` when some pending nodes wait on each other. */
  function TopoSort<T(==,!new)>(pending: seq<T>, edges: set<(T, T)>): Option<seq<T>>
    decreases |pending|
  {
    if pending == [] then Some([])
    else match FirstFree(pending, edges, 0)
      case None => None
      case Some(i) =>
        match TopoSort(RemoveAt(pending, i), edges)
        case None => None
        case Some(o) => Some([pending[i]] + o)
  }

  /** A topological order is a permutation of the pending nodes. */
  lemma {:induction false} TopoSortPermutation<T(!new)>(pending: seq<T>, edges: set<(T, T)>)
    ensures TopoSort(pending, edges).Some? ==> multiset(TopoSort(pending, edges).value) == multiset(pending)
    decreases |pending|
  {
    if pending != [] && FirstFree(pending, edges, 0).Some? {
      var i := FirstFree(pending, edges, 0).value;
      TopoSortPermutation(RemoveAt(pending, i), edges);
      RemoveAtMultiset(pending, i);
    }
  }

  /** In a topological order no edge points backwards (nor loops on a node). */
  lemma {:induction false} TopoSortOrdered<T(!new)>(pending: seq<T>, edges: set<(T, T)>)
    ensures TopoSort(pending, edges).Some? ==>
      forall i, j :: 0 <= i <= j < |TopoSort(pending, edges).value| ==>
        (TopoSort(pending, edges).value[j], TopoSort(pending, edges).value[i]) !in edges
    decreases |pending|
  {
    if pending != [] && FirstFree(pending, edges, 0).Some? {
      var i := FirstFree(pending, edges, 0).value;
      var rest := RemoveAt(pending, i);
      TopoSortOrdered(rest, edges);
      if TopoSort(rest, edges).Some? {
        var o := TopoSort(rest, edges).value;
        var r := [pending[i]] + o;
        assert TopoSort(pending, edges) == Some(r);
        TopoSortPermutation(rest, edges);
        RemoveAtMultiset(pending, i);
        forall i1, j1 | 0 <= i1 <= j1 < |r|
          ensures (r[j1], r[i1]) !in edges
        {
          if i1 == 0 {
            if j1 > 0 {
              assert r[j1] == o[j1 - 1];
              assert r[j1] in multiset(o);
              assert r[j1] in pending;
            }
          } else {
            assert r[j1] == o[j1 - 1] && r[i1] == o[i1 - 1];
          }
        }
      }
    }
  }

  /** A graph without edges keeps the given order. */
  lemma {:induction false} TopoSortNoEdges<T(!new)>(pending: seq<T>)
    ensures TopoSort(pending, {}) == Some(pending)
    decreases |pending|
  {
    if pending != [] {
      assert FirstFree(pending, {}, 0) == Some(0);
      assert RemoveAt(pending, 0) == pending[1..];
      assert [pending[0]] + pending[1..] == pending;
      TopoSortNoEdges(pending[1..]);
    }
  }

  /** `list(nx.topological_sort(g))` where a cycle falls back to the given order, as the
      `except` branches of `_execute_sequential` and `_order_tasks` intend. */
  function OrderOrFallback<T(==,!new)>(g: DiGraph<T>, fallback: seq<T>): (r: seq<T>)
    ensures TopoSort(g.nodes, g.edges).Some? ==> r == TopoSort(g.nodes, g.edges).value
    ensures TopoSort(g.nodes, g.edges).None? ==> r == fallback
  {
    match TopoSort(g.nodes, g.edges)
    case Some(o) => o
    case None => fallback
  }

  /** The same call as written: the handler catches `NetworkXError`, but a cycle makes the
      sort raise `NetworkXUnfeasible`, which is not a subclass of it, so the error escapes. */
  function OrderAsWritten<T(==,!new)>(g: DiGraph<T>, fallback: seq<T>): (r: Result<seq<T>, string>)
    ensures r.Ok? <==> TopoSort(g.nodes, g.edges).Some?
    ensures r.Ok? ==> r.value == OrderOrFallback(g, fallback)
  {
    match TopoSort(g.nodes, g.edges)
    case Some(o) => Ok(o)
    case None => Err("NetworkXUnfeasible: Graph contains a cycle or graph changed during iteration")
  }

  /** When every pending node has a pending predecessor there is no topological order. */
  lemma NoFreeNodeNoOrder<T(!new)>(pending: seq<T>, edges: set<(T, T)>)
    requires pending != []
    requires forall i :: 0 <= i < |pending| ==> !NoPredIn(edges, pending[i], pending)
    ensures TopoSort(pending, edges).None?
  {
    assert FirstFree(pending, edges, 0).None?;
  }

  /** Two tasks that depend on each other: the as-written order raises, while the intended
      fallback returns the task list. */
  lemma CycleEscapesHandler<T(!new)>(a: T, b: T)
    ensures OrderAsWritten(DiGraph([a, b], {(a, b), (b, a)}), [a, b]).Err?
    ensures OrderOrFallback(DiGraph([a, b], {(a, b), (b, a)}), [a, b]) == [a, b]
  {
    var g := DiGraph([a, b], {(a, b), (b, a)});
    assert !NoPredIn(g.edges, a, g.nodes) by { assert b in g.nodes; }
    assert !NoPredIn(g.edges, b, g.nodes) by { assert a in g.nodes; }
    NoFreeNodeNoOrder(g.nodes, g.edges);
  }

  /** With a topological order available, the order is a permutation of the nodes and no
      edge points backwards; otherwise it is the fallback. */
  lemma OrderIsPermutation<T(!new)>(g: DiGraph<T>, fallback: seq<T>)
    requires multiset(fallback) == multiset(g.nodes)
    ensures multiset(OrderOrFallback(g, fallback)) == multiset(g.nodes)
    ensures TopoSort(g.nodes, g.edges).Some? ==>
      forall i, j :: 0 <= i <= j < |OrderOrFallback(g, fallback)| ==>
        (OrderOrFallback(g, fallback)[j], OrderOrFallback(g, fallback)[i]) !in g.edges
  {
    TopoSortPermutation(g.nodes, g.edges);
    TopoSortOrdered(g.nodes, g.edges);
  }

  /** A node occurs at most once in a sequence of distinct nodes. */
  lemma {:induction false} DistinctCount<T(!new)>(s: seq<T>, x: T)
    requires Distinct(s)
    ensures multiset(s)[x] <= 1
  {
    if s != [] {
      assert s == [s[0]] + s[1..];
      DistinctCount(s[1..], x);
      if s[0] == x {
        assert x !in s[1..];
      }
    }
  }

  /** A permutation of a sequence of distinct nodes holds distinct nodes. */
  lemma PermutationDistinct<T(!new)>(a: seq<T>, b: seq<T>)
    requires multiset(a) == multiset(b) && Distinct(b)
    ensures Distinct(a)
  {
    forall i, j | 0 <= i < j < |a| ensures a[i] != a[j] {
      if a[i] == a[j] {
        assert a == a[..i] + [a[i]] + a[i + 1..j] + [a[j]] + a[j + 1..];
        assert multiset(a)[a[i]] >= 2;
        DistinctCount(b, a[i]);
      }
    }
  }

  /** `remaining` without the nodes of `wave`, in order. */
  function Without<T(==,!new)>(remaining: seq<T>, wave: seq<T>): (r: seq<T>)
    ensures forall x :: x in r <==> x in remaining && x !in wave
    ensures |r| <= |remaining|
    ensures (exists x :: x in remaining && x in wave) ==> |r| < |remaining|
  {
    if remaining == [] then []
    else
      var rest := Without(remaining[1..], wave);
      assert forall x :: x in remaining <==> x == remaining[0] || x in remaining[1..];
      if remaining[0] in wave then rest else [remaining[0]] + rest
  }

  lemma WithoutAll<T(!new)>(remaining: seq<T>, wave: seq<T>)
    requires forall x :: x in remaining ==> x in wave
    ensures Without(remaining, wave) == []
  {
  }

  lemma {:induction false} WithoutDistinct<T(!new)>(remaining: seq<T>, wave: seq<T>)
    requires Distinct(remaining)
    ensures Distinct(Without(remaining, wave))
  {
    if remaining != [] {
      WithoutDistinct(remaining[1..], wave);
    }
  }

  /** The inner loop of `_calculate_waves`: the nodes of `remaining` none of whose
      predecessors is still remaining, in order. */
  method FreeNodes<T(==,!new)>(g: DiGraph<T>, remaining: seq<T>) returns (wave: seq<T>)
    requires Distinct(remaining)
    ensures Distinct(wave)
    ensures forall n {:trigger n in wave} :: n in wave <==> n in remaining && NoPredIn(g.edges, n, remaining)
  {
    wave := [];
    var i := 0;
    while i < |remaining|
      invariant 0 <= i <= |remaining|
      invariant Distinct(wave)
      invariant forall n :: n in wave <==> n in remaining[..i] && NoPredIn(g.edges, n, remaining)
    {
      var n := remaining[i];
      assert n !in remaining[..i];
      if NoPredIn(g.edges, n, remaining) {
        wave := wave + [n];
      }
      PrefixStep(remaining, i);
      i := i + 1;
    }
    assert remaining[..i] == remaining;
  }

  /** The index of the wave holding `n`, or -1 when no wave does (the first one, should
      several hold it). */
  function WaveIndex<T(==,!new)>(waves: seq<seq<T>>, n: T): (r: int)
    ensures -1 <= r < |waves|
    ensures r >= 0 ==> n in waves[r]
  {
    if waves == [] then -1
    else
      var front := WaveIndex(waves[..|waves| - 1], n);
      if front >= 0 then front
      else if n in waves[|waves| - 1] then |waves| - 1
      else -1
  }

  lemma WaveIndexAppend<T(!new)>(waves: seq<seq<T>>, wave: seq<T>, n: T)
    ensures WaveIndex(waves + [wave], n) ==
      if WaveIndex(waves, n) >= 0 then WaveIndex(waves, n) else if n in wave then |waves| else -1
  {
    assert (waves + [wave])[..|waves|] == waves;
  }

  /** Each node of wave `k` is placed in wave `k` and no other. */
  ghost predicate Placed<T(!new)>(waves: seq<seq<T>>) {
    forall k, n :: 0 <= k < |waves| && n in waves[k] ==> WaveIndex(waves, n) == k
  }

  /** Every predecessor of every node of wave `k` lies in an earlier wave. */
  ghost predicate PredsEarlier<T(!new)>(g: DiGraph<T>, waves: seq<seq<T>>, k: int)
    requires 0 <= k < |waves|
  {
    forall n, p :: n in waves[k] && (p, n) in g.edges ==> 0 <= WaveIndex(waves, p) < k
  }

  /** Every node of the wave has a predecessor inside the wave: what is left once no
      remaining node is free, that is, nodes on or behind a cycle. */
  ghost predicate CycleWave<T(!new)>(g: DiGraph<T>, wave: seq<T>) {
    forall n :: n in wave ==> PredsIn(g, n, wave) != {}
  }

  /** The predecessors of `n` that lie in `s`. */
  ghost function PredsIn<T(!new)>(g: DiGraph<T>, n: T, s: seq<T>): set<T> {
    set p | p in s && (p, n) in g.edges
  }

  lemma AddWaveCover<T(!new)>(g: DiGraph<T>, waves: seq<seq<T>>, remaining: seq<T>, wave: seq<T>)
    requires forall n :: n in g.nodes <==> n in remaining || WaveIndex(waves, n) >= 0
    requires forall n :: n in remaining ==> WaveIndex(waves, n) == -1
    requires forall n :: n in wave ==> n in remaining
    ensures forall n :: n in g.nodes <==> n in Without(remaining, wave) || WaveIndex(waves + [wave], n) >= 0
    ensures forall n :: n in Without(remaining, wave) ==> WaveIndex(waves + [wave], n) == -1
  {
    forall n {
      WaveIndexAppend(waves, wave, n);
    }
  }

  lemma AddWavePlaced<T(!new)>(waves: seq<seq<T>>, remaining: seq<T>, wave: seq<T>)
    requires Placed(waves)
    requires forall n :: n in remaining ==> WaveIndex(waves, n) == -1
    requires forall n :: n in wave ==> n in remaining
    ensures Placed(waves + [wave])
  {
    var w := waves + [wave];
    forall k, n | 0 <= k < |w| && n in w[k] ensures WaveIndex(w, n) == k {
      WaveIndexAppend(waves, wave, n);
      if k < |waves| {
        assert w[k] == waves[k];
      }
    }
  }

  lemma AddWaveOldPreds<T(!new)>(g: DiGraph<T>, waves: seq<seq<T>>, wave: seq<T>, k: int)
    requires 0 <= k < |waves| && PredsEarlier(g, waves, k)
    ensures PredsEarlier(g, waves + [wave], k)
  {
    var w := waves + [wave];
    assert w[k] == waves[k];
    forall n, p | n in w[k] && (p, n) in g.edges ensures 0 <= WaveIndex(w, p) < k {
      WaveIndexAppend(waves, wave, p);
    }
  }

  lemma AddWaveNewPreds<T(!new)>(g: DiGraph<T>, waves: seq<seq<T>>, remaining: seq<T>, wave: seq<T>)
    requires WellFormed(g)
    requires forall n :: n in g.nodes ==> n in remaining || WaveIndex(waves, n) >= 0
    requires forall n :: n in wave ==> NoPredIn(g.edges, n, remaining)
    ensures PredsEarlier(g, waves + [wave], |waves|)
  {
    var w := waves + [wave];
    assert w[|waves|] == wave;
    forall n, p | n in w[|waves|] && (p, n) in g.edges ensures 0 <= WaveIndex(w, p) < |waves| {
      assert p in g.nodes && p !in remaining;
      WaveIndexAppend(waves, wave, p);
    }
  }

  /** The loop invariant of `_calculate_waves`: how the nodes are split between the waves
      and what remains, ... */
  ghost predicate Covers<T(!new)>(g: DiGraph<T>, waves: seq<seq<T>>, remaining: seq<T>) {
    Distinct(remaining) &&
    (forall k :: 0 <= k < |waves| ==> waves[k] != [] && Distinct(waves[k])) &&
    (forall n :: n in g.nodes <==> n in remaining || WaveIndex(waves, n) >= 0) &&
    (forall n :: n in remaining ==> WaveIndex(waves, n) == -1) &&
    Placed(waves)
  }

  /** ... and the order of the waves: only the last one, once nothing remains, may be a
      cycle wave. */
  ghost predicate Layered<T(!new)>(g: DiGraph<T>, waves: seq<seq<T>>, remaining: seq<T>) {
    (forall k | 0 <= k < |waves| - 1 :: PredsEarlier(g, waves, k)) &&
    (|waves| > 0 ==>
      PredsEarlier(g, waves, |waves| - 1) || (CycleWave(g, waves[|waves| - 1]) && remaining == []))
  }

  ghost predicate WavesInv<T(!new)>(g: DiGraph<T>, waves: seq<seq<T>>, remaining: seq<T>) {
    Covers(g, waves, remaining) && Layered(g, waves, remaining)
  }

  lemma AddWavePreds<T(!new)>(g: DiGraph<T>, waves: seq<seq<T>>, remaining: seq<T>, wave: seq<T>)
    requires remaining != []
    requires forall k | 0 <= k < |waves| - 1 :: PredsEarlier(g, waves, k)
    requires |waves| > 0 ==>
      PredsEarlier(g, waves, |waves| - 1) || (CycleWave(g, waves[|waves| - 1]) && remaining == [])
    ensures forall k | 0 <= k < |waves + [wave]| - 1 :: PredsEarlier(g, waves + [wave], k)
  {
    forall k | 0 <= k < |waves + [wave]| - 1 ensures PredsEarlier(g, waves + [wave], k) {
      AddWaveOldPreds(g, waves, wave, k);
    }
  }

  /** When no remaining node is free, every remaining node waits on another one. */
  lemma StuckIsCycle<T(!new)>(g: DiGraph<T>, remaining: seq<T>, free: seq<T>)
    requires free == []
    requires forall n {:trigger n in free} :: n in free <==> n in remaining && NoPredIn(g.edges, n, remaining)
    ensures CycleWave(g, remaining)
  {
    forall n | n in remaining
      ensures PredsIn(g, n, remaining) != {}
    {
      assert n !in free;
      var p :| p in remaining && (p, n) in g.edges;
      assert p in PredsIn(g, n, remaining);
    }
  }

  /** Adding the next wave keeps the first half of the invariant. */
  lemma AddWaveCovers<T(!new)>(g: DiGraph<T>, waves: seq<seq<T>>, remaining: seq<T>, wave: seq<T>)
    requires Covers(g, waves, remaining)
    requires wave != [] && Distinct(wave) && forall n :: n in wave ==> n in remaining
    ensures Covers(g, waves + [wave], Without(remaining, wave))
  {
    var w := waves + [wave];
    WithoutDistinct(remaining, wave);
    AddWaveCover(g, waves, remaining, wave);
    AddWavePlaced(waves, remaining, wave);
    forall k | 0 <= k < |w| ensures w[k] != [] && Distinct(w[k]) {
      if k < |waves| { assert w[k] == waves[k]; }
    }
  }

  /** Adding the next wave keeps the second half of the invariant. */
  lemma AddWaveLayered<T(!new)>(g: DiGraph<T>, waves: seq<seq<T>>, remaining: seq<T>, wave: seq<T>, cyclic: bool)
    requires WellFormed(g) && Layered(g, waves, remaining) && remaining != []
    requires forall n :: n in g.nodes ==> n in remaining || WaveIndex(waves, n) >= 0
    requires !cyclic ==> forall n :: n in wave ==> NoPredIn(g.edges, n, remaining)
    requires cyclic ==> wave == remaining && CycleWave(g, wave)
    ensures Layered(g, waves + [wave], Without(remaining, wave))
  {
    var w := waves + [wave];
    assert w[|w| - 1] == wave;
    AddWavePreds(g, waves, remaining, wave);
    if cyclic {
      WithoutAll(remaining, wave);
    } else {
      AddWaveNewPreds(g, waves, remaining, wave);
    }
  }

  /** One round of `_calculate_waves`: the free nodes form the next wave, or, when there
      are none, all remaining nodes do. */
  lemma NextWave<T(!new)>(g: DiGraph<T>, waves: seq<seq<T>>, remaining: seq<T>, free: seq<T>)
    requires WellFormed(g) && WavesInv(g, waves, remaining) && remaining != [] && Distinct(free)
    requires forall n {:trigger n in free} :: n in free <==> n in remaining && NoPredIn(g.edges, n, remaining)
    ensures var wave := if free == [] then remaining else free;
      WavesInv(g, waves + [wave], Without(remaining, wave)) &&
      |Without(remaining, wave)| < |remaining|
  {
    if free == [] {
      StuckIsCycle(g, remaining, free);
      assert remaining[0] in remaining;
      AddWaveCovers(g, waves, remaining, remaining);
      AddWaveLayered(g, waves, remaining, remaining, true);
    } else {
      assert free[0] in free;
      AddWaveCovers(g, waves, remaining, free);
      AddWaveLayered(g, waves, remaining, free, false);
    }
  }

  /** Once nothing remains, the invariant gives the properties `_calculate_waves` promises. */
  lemma WavesDone<T(!new)>(g: DiGraph<T>, waves: seq<seq<T>>)
    requires WavesInv(g, waves, [])
    ensures forall k :: 0 <= k < |waves| ==> waves[k] != [] && Distinct(waves[k])
    ensures forall n :: n in g.nodes <==> WaveIndex(waves, n) >= 0
    ensures Placed(waves)
    ensures forall k | 0 <= k < |waves| - 1 :: PredsEarlier(g, waves, k)
    ensures |waves| > 0 ==> PredsEarlier(g, waves, |waves| - 1) || CycleWave(g, waves[|waves| - 1])
  {
  }

  /** `_calculate_waves`: partitions the graph's nodes into non-empty waves, each node after
      all its predecessors; when nodes wait on each other, all of them form one final wave. */
  method CalculateWaves<T(==,!new)>(g: DiGraph<T>) returns (waves: seq<seq<T>>)
    requires WellFormed(g)
    ensures forall k :: 0 <= k < |waves| ==> waves[k] != [] && Distinct(waves[k])
    ensures forall n :: n in g.nodes <==> WaveIndex(waves, n) >= 0
    ensures Placed(waves)
    ensures forall k | 0 <= k < |waves| - 1 :: PredsEarlier(g, waves, k)
    ensures |waves| > 0 ==> PredsEarlier(g, waves, |waves| - 1) || CycleWave(g, waves[|waves| - 1])
  {
    waves := [];
    var remaining := g.nodes;
    while remaining != []
      invariant WavesInv(g, waves, remaining)
      decreases |remaining|
    {
      var wave := FreeNodes(g, remaining);
      NextWave(g, waves, remaining, wave);
      if wave == [] {
        wave := remaining;
      }
      waves := waves + [wave];
      remaining := Without(remaining, wave);
    }
    WavesDone(g, waves);
  }
}
