/** The resumable search of common/src/astar.rs, over exact real costs. */
module Astars {
  import opened Wrappers

  /** `f32::MAX`, the score of a node not reached yet. */
  const F32_MAX: real := 340282346638528859811704183484516925440.0

  /** It is (2^24 - 1) * 2^104. */
  lemma LargestFloat()
    ensures F32_MAX == 16777215.0 * 20282409603651670423947251286016.0
  {
  }

  datatype PathEntry<S> = PathEntry(cost: real, node: S)

  datatype PathResult<S> =
    | NoPath(path: seq<S>)
    | Exhausted(path: seq<S>)
    | Found(path: seq<S>)
    | Pending

  // ----- the tree of predecessors

  /** Every node but the start has a predecessor of strictly smaller score. */
  ghost predicate Grounded<S(!new)>(start: S, cameFrom: map<S, S>, scores: map<S, real>) {
    && scores.Keys == cameFrom.Keys + {start}
    && start !in cameFrom
    && scores[start] == 0.0
    && (forall n :: n in scores ==> scores[n] >= 0.0)
    && forall n :: n in cameFrom ==> cameFrom[n] in scores && scores[cameFrom[n]] < scores[n]
  }

  ghost function Below<S(!new)>(scores: map<S, real>, bound: real): set<S> {
    set n | n in scores && scores[n] < bound
  }

  lemma PredecessorIsBelow<S(!new)>(start: S, cameFrom: map<S, S>, scores: map<S, real>, n: S)
    requires Grounded(start, cameFrom, scores) && n in cameFrom
    ensures cameFrom[n] in scores && Below(scores, scores[cameFrom[n]]) < Below(scores, scores[n])
  {
    var p := cameFrom[n];
    assert p in Below(scores, scores[n]) && p !in Below(scores, scores[p]);
  }

  /** A chain of predecessors from the start. */
  ghost predicate Genuine<S(!new)>(start: S, cameFrom: map<S, S>, path: seq<S>) {
    && path != [] && path[0] == start
    && forall i :: 0 < i < |path| ==> path[i] in cameFrom && cameFrom[path[i]] == path[i - 1]
  }

  /** Every predecessor edge is a neighbour edge. */
  ghost predicate Follows<S(!new)>(cameFrom: map<S, S>, neighbors: S -> seq<S>) {
    forall n :: n in cameFrom ==> n in neighbors(cameFrom[n])
  }

  /** Every score covers its predecessor's and the cost of the edge between. */
  ghost predicate Paid<S(!new)>(cameFrom: map<S, S>, scores: map<S, real>, transition: (S, S) -> real) {
    forall n :: n in cameFrom ==>
      n in scores && cameFrom[n] in scores && scores[cameFrom[n]] + transition(cameFrom[n], n) <= scores[n]
  }

  function Cost<S>(path: seq<S>, transition: (S, S) -> real): real {
    if |path| < 2 then 0.0
    else Cost(path[..|path| - 1], transition) + transition(path[|path| - 2], path[|path| - 1])
  }

  /** A returned path costs no more than the recorded score of its end. */
  lemma {:induction false} PathCost<S(!new)>(start: S, cameFrom: map<S, S>, scores: map<S, real>,
          transition: (S, S) -> real, path: seq<S>)
    requires Grounded(start, cameFrom, scores) && Paid(cameFrom, scores, transition) && Genuine(start, cameFrom, path)
    ensures path[|path| - 1] in scores && Cost(path, transition) <= scores[path[|path| - 1]]
    decreases |path|
  {
    if |path| > 1 {
      var n := |path| - 1;
      assert path[n] in cameFrom && cameFrom[path[n]] == path[n - 1];
      PathCost(start, cameFrom, scores, transition, path[..n]);
    }
  }

  /** A path over neighbour edges. */
  ghost predicate Walk<S(!new)>(neighbors: S -> seq<S>, path: seq<S>) {
    path != [] && forall i :: 0 < i < |path| ==> path[i] in neighbors(path[i - 1])
  }

  lemma PathFollows<S(!new)>(start: S, cameFrom: map<S, S>, neighbors: S -> seq<S>, path: seq<S>)
    requires Genuine(start, cameFrom, path) && Follows(cameFrom, neighbors)
    ensures Walk(neighbors, path) && path[0] == start
  {
    forall i | 0 < i < |path|
      ensures path[i] in neighbors(path[i - 1])
    {
      assert path[i] in cameFrom;
    }
  }

  // ----- the search

  ghost predicate Positive<S(!new)>(transition: (S, S) -> real) {
    forall a, b :: transition(a, b) > 0.0
  }

  /** A walk of at most `len` nodes leads from `start` to `n`. */
  ghost predicate WalkTo<S(!new)>(neighbors: S -> seq<S>, start: S, n: S, len: nat) {
    exists walk :: Walk(neighbors, walk) && walk[0] == start && walk[|walk| - 1] == n && |walk| <= len
  }

  ghost predicate Reached<S(!new)>(neighbors: S -> seq<S>, start: S, nodes: set<S>, len: nat) {
    forall n :: n in nodes ==> WalkTo(neighbors, start, n, len)
  }

  /** No edge costs more than `bound`, of those that `len` iterations can come to. */
  ghost predicate Affordable<S(!new)>(neighbors: S -> seq<S>, start: S, transition: (S, S) -> real,
          len: nat, bound: real) {
    forall a, b :: WalkTo(neighbors, start, a, len) && b in neighbors(a) ==> transition(a, b) <= bound
  }

  lemma WalkOn<S(!new)>(neighbors: S -> seq<S>, start: S, a: S, b: S, len: nat)
    requires WalkTo(neighbors, start, a, len) && b in neighbors(a)
    ensures WalkTo(neighbors, start, b, len + 1)
  {
    var walk :| Walk(neighbors, walk) && walk[0] == start && walk[|walk| - 1] == a && |walk| <= len;
    assert Walk(neighbors, walk + [b]);
  }

  lemma WalkLonger<S(!new)>(neighbors: S -> seq<S>, start: S, n: S, len: nat, more: nat)
    requires WalkTo(neighbors, start, n, len) && len <= more
    ensures WalkTo(neighbors, start, n, more)
  {
    var walk :| Walk(neighbors, walk) && walk[0] == start && walk[|walk| - 1] == n && |walk| <= len;
    assert |walk| <= more;
  }

  ghost predicate InHeap<S(!new)>(heap: seq<PathEntry<S>>, n: S) {
    exists i :: 0 <= i < |heap| && heap[i].node == n
  }

  ghost predicate DistinctNodes<S(!new)>(heap: seq<PathEntry<S>>) {
    forall i, j :: 0 <= i < j < |heap| ==> heap[i].node != heap[j].node
  }

  /** What has been visited, `pending` apart, is waiting, or is not wanted and has all its neighbours visited. */
  ghost predicate Settled<S(!new)>(
    visited: set<S>, heap: seq<PathEntry<S>>, neighbors: S -> seq<S>, satisfied: S -> bool, pending: set<S>
  ) {
    forall n :: n in visited && n !in pending ==>
      InHeap(heap, n) || (!satisfied(n) && forall m :: m in neighbors(n) ==> m in visited)
  }

  /** With nothing left waiting, no walk from a visited node leads to a wanted one. */
  lemma {:induction false} NothingMissed<S(!new)>(visited: set<S>, neighbors: S -> seq<S>, satisfied: S -> bool,
          path: seq<S>)
    requires Settled(visited, [], neighbors, satisfied, {})
    requires Walk(neighbors, path) && path[0] in visited
    ensures path[|path| - 1] in visited && !satisfied(path[|path| - 1])
    decreases |path|
  {
    var n := |path| - 1;
    if n > 0 {
      NothingMissed(visited, neighbors, satisfied, path[..n]);
      assert path[n] in neighbors(path[n - 1]);
    }
  }

  ghost predicate IsMin<S(!new)>(heap: seq<PathEntry<S>>, i: nat) {
    i < |heap| && forall j :: 0 <= j < |heap| ==> heap[i].cost <= heap[j].cost
  }

  /** `rest` is the heap without `e`. */
  ghost predicate Popped<S(!new)>(heap: seq<PathEntry<S>>, e: PathEntry<S>, rest: seq<PathEntry<S>>) {
    && e in heap && multiset(rest) <= multiset(heap) && DistinctNodes(rest) && !InHeap(rest, e.node)
    && forall n :: InHeap(heap, n) <==> InHeap(rest, n) || n == e.node
  }

  ghost predicate IsCheapest<S(!new)>(heap: seq<PathEntry<S>>, n: S) {
    exists e :: e in heap && e.node == n && forall x :: x in heap ==> e.cost <= x.cost
  }

  /** `BinaryHeap::pop`: an entry of least cost, whichever among equals. */
  method PopMin<S(!new)>(heap: seq<PathEntry<S>>) returns (e: PathEntry<S>, rest: seq<PathEntry<S>>)
    requires heap != []
    ensures e in heap && IsCheapest(heap, e.node) && forall x :: x in heap ==> e.cost <= x.cost
    ensures multiset(rest) + multiset{e} == multiset(heap)
    ensures DistinctNodes(heap) ==> Popped(heap, e, rest)
  {
    var best := 0;
    for i := 1 to |heap|
      invariant best < i && IsMin(heap[..i], best)
    {
      if heap[i].cost < heap[best].cost {
        best := i;
      } else if heap[i].cost == heap[best].cost {
        if * { best := i; }
      }
    }
    assert heap[..|heap|] == heap;
    e := heap[best];
    rest := heap[..best] + heap[best + 1..];
    assert heap == heap[..best] + [e] + heap[best + 1..];
    Removed(heap, best);
  }

  lemma Removed<S(!new)>(heap: seq<PathEntry<S>>, best: nat)
    requires best < |heap|
    ensures var rest := heap[..best] + heap[best + 1..];
      && (DistinctNodes(heap) ==> DistinctNodes(rest) && !InHeap(rest, heap[best].node))
      && forall n :: InHeap(heap, n) <==> InHeap(rest, n) || n == heap[best].node
  {
    var rest := heap[..best] + heap[best + 1..];
    assert forall i :: 0 <= i < |rest| ==> rest[i] == heap[if i < best then i else i + 1];
    forall n
      ensures InHeap(heap, n) <==> InHeap(rest, n) || n == heap[best].node
    {
      if InHeap(heap, n) && n != heap[best].node {
        var i :| 0 <= i < |heap| && heap[i].node == n;
        assert rest[if i < best then i else i - 1].node == n;
      }
      if InHeap(rest, n) {
        var i :| 0 <= i < |rest| && rest[i].node == n;
        assert heap[if i < best then i else i + 1].node == n;
      }
    }
  }

  // ----- the state of a search

  /** What a search has found so far. `first` is a history: the score of every node when it
      was visited. */
  datatype Search<S> = Search(
    heap: seq<PathEntry<S>>,
    cameFrom: map<S, S>,
    scores: map<S, real>,
    finalScores: map<S, real>,
    visited: set<S>,
    cheapestNode: Option<S>,
    cheapestCost: Option<real>,
    first: map<S, real>)

  /** Only visited nodes wait, once each, and no node is expanded twice. */
  ghost predicate Waiting<S(!new)>(heap: seq<PathEntry<S>>, visited: set<S>, expanded: seq<S>) {
    && (forall i :: 0 <= i < |heap| ==> heap[i].node in visited)
    && DistinctNodes(heap)
    && (forall i, j :: 0 <= i < j < |expanded| ==> expanded[i] != expanded[j])
    && (forall i :: 0 <= i < |expanded| ==> expanded[i] in visited && !InHeap(heap, expanded[i]))
  }

  /** A score is never worse than the one a node was visited with. */
  ghost predicate Improved<S(!new)>(s: Search<S>) {
    s.first.Keys == s.scores.Keys && forall n :: n in s.scores ==> s.scores[n] <= s.first[n]
  }

  /** What every poll keeps, whatever functions it is given. */
  ghost predicate Sound<S(!new)>(start: S, s: Search<S>, expanded: seq<S>) {
    && Grounded(start, s.cameFrom, s.scores)
    && s.visited == s.scores.Keys
    && Waiting(s.heap, s.visited, expanded)
    && Improved(s)
    && (s.cheapestNode.Some? ==> s.cheapestNode.value in s.visited)
  }

  ghost predicate Capped<S(!new)>(scores: map<S, real>, limit: real) {
    forall n :: n in scores ==> scores[n] <= limit
  }

  /** The node kept for an unfinished path has a neighbour reached with the least
      heuristic of all nodes reached. */
  ghost predicate Guided<S(!new)>(s: Search<S>, heuristic: S -> real, neighbors: S -> seq<S>) {
    && s.finalScores.Keys == s.scores.Keys
    && (forall n :: n in s.scores ==> s.finalScores[n] == s.scores[n] + heuristic(n))
    && (s.cheapestNode.None? <==> s.cheapestCost.None?)
    && (s.cheapestNode.None? ==> s.cameFrom.Keys == {})
    && (s.cheapestNode.Some? ==>
          && (forall n :: n in s.cameFrom ==> s.cheapestCost.value <= heuristic(n))
          && exists n ::
               n in neighbors(s.cheapestNode.value) && n in s.cameFrom && heuristic(n) == s.cheapestCost.value)
  }

  /** The order nodes are taken in: the score a node was visited with, and its heuristic. */
  ghost function Due<S(!new)>(start: S, first: map<S, real>, heuristic: S -> real, n: S): real {
    if n == start || n !in first then 0.0 else first[n] + heuristic(n)
  }

  /** Every node waits at the score it was visited with and its heuristic; the start at nothing. */
  ghost predicate Ordered<S(!new)>(start: S, s: Search<S>, heuristic: S -> real) {
    forall i :: 0 <= i < |s.heap| ==> s.heap[i].cost == Due(start, s.first, heuristic, s.heap[i].node)
  }

  /** Whoever was expanded while a node visited before was waiting was due no later than it;
      `born` is how many nodes had been expanded when a node was visited. */
  ghost predicate InTurn<S(!new)>(start: S, s: Search<S>, expanded: seq<S>, born: map<S, nat>, heuristic: S -> real) {
    && born.Keys == s.visited
    && (forall i, k :: 0 <= i < |expanded| && 0 <= k < |s.heap| &&
                       s.heap[k].node in born && born[s.heap[k].node] <= i ==>
          Due(start, s.first, heuristic, expanded[i]) <= Due(start, s.first, heuristic, s.heap[k].node))
    && (forall i, j :: 0 <= i < j < |expanded| && expanded[j] in born && born[expanded[j]] <= i ==>
          Due(start, s.first, heuristic, expanded[i]) <= Due(start, s.first, heuristic, expanded[j]))
  }

  // ----- looking at one neighbour

  function ScoreOf<S>(scores: map<S, real>, n: S): real {
    if n in scores then scores[n] else F32_MAX
  }

  /** `neighbor` is reached from `node` at `cost`. */
  function Reach<S>(s: Search<S>, node: S, neighbor: S, cost: real, h: real): Search<S> {
    var better := s.cheapestCost.None? || h < s.cheapestCost.value;
    Search(
      if neighbor in s.visited then s.heap else s.heap + [PathEntry(cost + h, neighbor)],
      s.cameFrom[neighbor := node],
      s.scores[neighbor := cost],
      s.finalScores[neighbor := cost + h],
      s.visited + {neighbor},
      if better then Some(node) else s.cheapestNode,
      if better then Some(h) else s.cheapestCost,
      if neighbor in s.visited then s.first else s.first[neighbor := cost])
  }

  function Relaxed<S>(s: Search<S>, node: S, neighbor: S, heuristic: S -> real, transition: (S, S) -> real): Search<S> {
    var cost := ScoreOf(s.scores, node) + transition(node, neighbor);
    if cost < ScoreOf(s.scores, neighbor) then Reach(s, node, neighbor, cost, heuristic(neighbor)) else s
  }

  function RelaxedAll<S>(s: Search<S>, node: S, ns: seq<S>, heuristic: S -> real,
          transition: (S, S) -> real): Search<S> {
    if ns == [] then s
    else Relaxed(RelaxedAll(s, node, ns[..|ns| - 1], heuristic, transition), node, ns[|ns| - 1], heuristic, transition)
  }

  lemma Pushed<S(!new)>(heap: seq<PathEntry<S>>, e: PathEntry<S>)
    ensures forall n :: InHeap(heap + [e], n) <==> InHeap(heap, n) || n == e.node
    ensures DistinctNodes(heap) && !InHeap(heap, e.node) ==> DistinctNodes(heap + [e])
  {
    forall n
      ensures InHeap(heap + [e], n) <==> InHeap(heap, n) || n == e.node
    {
      if InHeap(heap, n) {
        var i :| 0 <= i < |heap| && heap[i].node == n;
        assert (heap + [e])[i].node == n;
      }
      assert (heap + [e])[|heap|].node == e.node;
    }
  }

  lemma PushWaiting<S(!new)>(heap: seq<PathEntry<S>>, visited: set<S>, expanded: seq<S>, e: PathEntry<S>)
    requires Waiting(heap, visited, expanded) && e.node !in visited
    ensures Waiting(heap + [e], visited + {e.node}, expanded)
    ensures forall n :: n in visited ==> (InHeap(heap + [e], n) <==> InHeap(heap, n))
    ensures InHeap(heap + [e], e.node)
  {
    assert !InHeap(heap, e.node);
    Pushed(heap, e);
  }

  /** Two states of one search around looking at neighbours of `node`. */
  ghost predicate Onward<S(!new)>(s: Search<S>, s': Search<S>, node: S) {
    && s.visited <= s'.visited
    && (forall n :: n in s.visited ==> (InHeap(s'.heap, n) <==> InHeap(s.heap, n)))
    && (forall n :: n in s'.visited && n !in s.visited ==> InHeap(s'.heap, n))
    && (forall n :: n in s.scores ==> n in s'.scores && s'.scores[n] <= s.scores[n])
    && node in s.scores && node in s'.scores && s'.scores[node] == s.scores[node]
  }

  lemma RelaxSound<S(!new)>(start: S, s: Search<S>, expanded: seq<S>, node: S, neighbor: S,
                            heuristic: S -> real, transition: (S, S) -> real)
    requires Sound(start, s, expanded) && node in s.visited && transition(node, neighbor) > 0.0
    ensures var s' := Relaxed(s, node, neighbor, heuristic, transition);
      Sound(start, s', expanded) && Onward(s, s', node)
  {
    RelaxOnward(start, s, expanded, node, neighbor, heuristic, transition);
    RelaxGrounded(start, s, node, neighbor, heuristic, transition);
    RelaxWaiting(s, expanded, node, neighbor, heuristic, transition);
    RelaxImproved(s, node, neighbor, heuristic, transition);
    RelaxKept(s, node, neighbor, heuristic, transition);
    hide Waiting, InHeap, Grounded, Improved, Relaxed, Onward;
  }

  lemma RelaxKept<S(!new)>(s: Search<S>, node: S, neighbor: S, heuristic: S -> real, transition: (S, S) -> real)
    requires s.visited == s.scores.Keys && node in s.visited
    requires s.cheapestNode.Some? ==> s.cheapestNode.value in s.visited
    ensures var s' := Relaxed(s, node, neighbor, heuristic, transition);
      && s'.visited == s'.scores.Keys
      && (s'.cheapestNode.Some? ==> s'.cheapestNode.value in s'.visited)
  {
  }

  lemma RelaxOnward<S(!new)>(start: S, s: Search<S>, expanded: seq<S>, node: S, neighbor: S, heuristic: S -> real,
                             transition: (S, S) -> real)
    requires Sound(start, s, expanded) && node in s.visited && transition(node, neighbor) > 0.0
    ensures Onward(s, Relaxed(s, node, neighbor, heuristic, transition), node)
  {
    RelaxWaiting(s, expanded, node, neighbor, heuristic, transition);
    hide Waiting, InHeap, Grounded, Improved;
  }

  lemma RelaxGrounded<S(!new)>(start: S, s: Search<S>, node: S, neighbor: S, heuristic: S -> real,
          transition: (S, S) -> real)
    requires Grounded(start, s.cameFrom, s.scores) && node in s.scores && transition(node, neighbor) > 0.0
    ensures var s' := Relaxed(s, node, neighbor, heuristic, transition); Grounded(start, s'.cameFrom, s'.scores)
  {
  }

  lemma RelaxWaiting<S(!new)>(s: Search<S>, expanded: seq<S>, node: S, neighbor: S, heuristic: S -> real,
          transition: (S, S) -> real)
    requires Waiting(s.heap, s.visited, expanded)
    ensures var s' := Relaxed(s, node, neighbor, heuristic, transition);
      && Waiting(s'.heap, s'.visited, expanded)
      && (forall n :: n in s.visited ==> (InHeap(s'.heap, n) <==> InHeap(s.heap, n)))
      && (forall n :: n in s'.visited && n !in s.visited ==> InHeap(s'.heap, n))
  {
    hide Waiting, InHeap;
    if neighbor !in s.visited {
      var cost := ScoreOf(s.scores, node) + transition(node, neighbor);
      PushWaiting(s.heap, s.visited, expanded, PathEntry(cost + heuristic(neighbor), neighbor));
    }
    assert neighbor in s.visited ==> s.visited + {neighbor} == s.visited;
  }

  lemma RelaxFollows<S(!new)>(s: Search<S>, node: S, neighbor: S, heuristic: S -> real, neighbors: S -> seq<S>,
          transition: (S, S) -> real)
    requires Follows(s.cameFrom, neighbors) && neighbor in neighbors(node)
    ensures Follows(Relaxed(s, node, neighbor, heuristic, transition).cameFrom, neighbors)
  {
  }

  lemma RelaxPaid<S(!new)>(start: S, s: Search<S>, expanded: seq<S>, node: S, neighbor: S,
                           heuristic: S -> real, transition: (S, S) -> real)
    requires Sound(start, s, expanded) && node in s.visited && transition(node, neighbor) > 0.0
    requires Paid(s.cameFrom, s.scores, transition)
    ensures var s' := Relaxed(s, node, neighbor, heuristic, transition); Paid(s'.cameFrom, s'.scores, transition)
  {
    var s' := Relaxed(s, node, neighbor, heuristic, transition);
    forall n | n in s'.cameFrom
      ensures n in s'.scores && s'.cameFrom[n] in s'.scores
      ensures s'.scores[s'.cameFrom[n]] + transition(s'.cameFrom[n], n) <= s'.scores[n]
    {
      if n != neighbor {
        assert s.scores[s.cameFrom[n]] + transition(s.cameFrom[n], n) <= s.scores[n];
      }
    }
  }

  lemma RelaxGuided<S(!new)>(s: Search<S>, node: S, neighbor: S, heuristic: S -> real, neighbors: S -> seq<S>,
          transition: (S, S) -> real)
    requires Guided(s, heuristic, neighbors) && neighbor in neighbors(node)
    ensures Guided(Relaxed(s, node, neighbor, heuristic, transition), heuristic, neighbors)
  {
    var s' := Relaxed(s, node, neighbor, heuristic, transition);
    assert forall n :: n in s'.cameFrom <==> n in s.cameFrom || (s' != s && n == neighbor);
    if s'.cheapestNode == s.cheapestNode && s.cheapestNode.Some? {
      var n :| n in neighbors(s.cheapestNode.value) && n in s.cameFrom && heuristic(n) == s.cheapestCost.value;
      assert n in s'.cameFrom;
    }
  }

  lemma RelaxImproved<S(!new)>(s: Search<S>, node: S, neighbor: S, heuristic: S -> real, transition: (S, S) -> real)
    requires Improved(s) && s.visited == s.scores.Keys
    ensures Improved(Relaxed(s, node, neighbor, heuristic, transition))
  {
  }

  lemma RelaxOrdered<S(!new)>(start: S, s: Search<S>, expanded: seq<S>, node: S, neighbor: S, heuristic: S -> real,
                              transition: (S, S) -> real)
    requires Sound(start, s, expanded) && node in s.visited && Ordered(start, s, heuristic)
    ensures Ordered(start, Relaxed(s, node, neighbor, heuristic, transition), heuristic)
  {
    hide DistinctNodes, InHeap;
  }

  /** Nodes visited keep the score they were visited with; new ones were visited by way of `node`. */
  ghost predicate VisitedFrom<S(!new)>(s: Search<S>, s': Search<S>, node: S, transition: (S, S) -> real) {
    && s.visited <= s'.visited && node in s.scores
    && (forall n :: n in s.visited ==> n in s.first && n in s'.first && s'.first[n] == s.first[n])
    && (forall n :: n in s'.visited && n !in s.visited ==>
          n in s'.first && n in s'.scores && s'.first[n] == s'.scores[n] == s.scores[node] + transition(node, n))
  }

  lemma RelaxVisited<S(!new)>(s: Search<S>, mid: Search<S>, node: S, neighbor: S, heuristic: S -> real,
                              transition: (S, S) -> real)
    requires VisitedFrom(s, mid, node, transition) && mid.visited == mid.scores.Keys
    requires node in mid.scores && mid.scores[node] == s.scores[node]
    ensures VisitedFrom(s, Relaxed(mid, node, neighbor, heuristic, transition), node, transition)
  {
  }

  // ----- looking at all neighbours

  lemma {:induction false} ExpandSound<S(!new)>(start: S, s: Search<S>, expanded: seq<S>, node: S, ns: seq<S>,
                                                heuristic: S -> real, transition: (S, S) -> real)
    requires Sound(start, s, expanded) && node in s.visited && Positive(transition)
    ensures var s' := RelaxedAll(s, node, ns, heuristic, transition); Sound(start, s', expanded) && Onward(s, s', node)
  {
    hide Sound, Relaxed, InHeap;
    if ns == [] {
      SoundStays(start, s, expanded, node);
    } else {
      var n := |ns| - 1;
      var mid := RelaxedAll(s, node, ns[..n], heuristic, transition);
      ExpandSound(start, s, expanded, node, ns[..n], heuristic, transition);
      RelaxSound(start, mid, expanded, node, ns[n], heuristic, transition);
    }
  }

  lemma {:induction false} ExpandOrdered<S(!new)>(start: S, s: Search<S>, expanded: seq<S>, node: S, ns: seq<S>,
                                                  heuristic: S -> real, transition: (S, S) -> real)
    requires Sound(start, s, expanded) && node in s.visited && Positive(transition)
    ensures var s' := RelaxedAll(s, node, ns, heuristic, transition);
      VisitedFrom(s, s', node, transition) && (Ordered(start, s, heuristic) ==> Ordered(start, s', heuristic))
  {
    hide Relaxed, InHeap, Ordered, Waiting, Grounded;
    if ns != [] {
      var n := |ns| - 1;
      var mid := RelaxedAll(s, node, ns[..n], heuristic, transition);
      ExpandSound(start, s, expanded, node, ns[..n], heuristic, transition);
      ExpandOrdered(start, s, expanded, node, ns[..n], heuristic, transition);
      hide VisitedFrom, Improved;
      RelaxVisited(s, mid, node, ns[n], heuristic, transition);
      if Ordered(start, s, heuristic) {
        RelaxOrdered(start, mid, expanded, node, ns[n], heuristic, transition);
      }
    }
  }

  lemma SoundStays<S(!new)>(start: S, s: Search<S>, expanded: seq<S>, node: S)
    requires Sound(start, s, expanded) && node in s.visited
    ensures Onward(s, s, node)
  {
  }

  lemma {:induction false} ExpandKeeps<S(!new)>(start: S, s: Search<S>, expanded: seq<S>, node: S, ns: seq<S>,
                                                heuristic: S -> real, neighbors: S -> seq<S>,
                                                transition: (S, S) -> real)
    requires Sound(start, s, expanded) && node in s.visited && Positive(transition)
    requires forall n :: n in ns ==> n in neighbors(node)
    ensures var s' := RelaxedAll(s, node, ns, heuristic, transition);
      && (Follows(s.cameFrom, neighbors) ==> Follows(s'.cameFrom, neighbors))
      && (Paid(s.cameFrom, s.scores, transition) ==> Paid(s'.cameFrom, s'.scores, transition))
      && (Guided(s, heuristic, neighbors) ==> Guided(s', heuristic, neighbors))
  {
    hide Sound, Relaxed, Follows, Paid, Guided;
    if ns != [] {
      var n := |ns| - 1;
      var mid := RelaxedAll(s, node, ns[..n], heuristic, transition);
      ExpandSound(start, s, expanded, node, ns[..n], heuristic, transition);
      ExpandKeeps(start, s, expanded, node, ns[..n], heuristic, neighbors, transition);
      if Follows(s.cameFrom, neighbors) {
        RelaxFollows(mid, node, ns[n], heuristic, neighbors, transition);
      }
      if Paid(s.cameFrom, s.scores, transition) {
        RelaxPaid(start, mid, expanded, node, ns[n], heuristic, transition);
      }
      if Guided(s, heuristic, neighbors) {
        RelaxGuided(mid, node, ns[n], heuristic, neighbors, transition);
      }
    }
  }

  /** With costs too small to reach `F32_MAX`, every neighbour is visited, at no more than
      the cost by way of `node`. */
  lemma {:induction false} ExpandReaches<S(!new)>(start: S, s: Search<S>, expanded: seq<S>, node: S, ns: seq<S>,
                                                  heuristic: S -> real, transition: (S, S) -> real, bound: real,
                                                  limit: real)
    requires Sound(start, s, expanded) && node in s.visited && Positive(transition)
    requires forall n :: n in ns ==> transition(node, n) <= bound
    requires Capped(s.scores, limit) && s.scores[node] + bound <= limit
    ensures var s' := RelaxedAll(s, node, ns, heuristic, transition);
      && Capped(s'.scores, limit)
      && (limit < F32_MAX ==>
            forall n :: n in ns ==> n in s'.scores && s'.scores[n] <= s.scores[node] + transition(node, n))
  {
    if ns != [] {
      var n := |ns| - 1;
      var mid := RelaxedAll(s, node, ns[..n], heuristic, transition);
      ExpandReaches(start, s, expanded, node, ns[..n], heuristic, transition, bound, limit);
      ExpandSound(start, s, expanded, node, ns[..n], heuristic, transition);
      RelaxSound(start, mid, expanded, node, ns[n], heuristic, transition);
      hide Sound, RelaxedAll, InHeap;
      RelaxReaches(mid, node, ns[n], heuristic, transition, bound, limit);
    }
  }

  lemma RelaxReaches<S(!new)>(s: Search<S>, node: S, neighbor: S, heuristic: S -> real, transition: (S, S) -> real,
          bound: real, limit: real)
    requires node in s.scores && transition(node, neighbor) <= bound
    requires Capped(s.scores, limit) && s.scores[node] + bound <= limit
    ensures var s' := Relaxed(s, node, neighbor, heuristic, transition);
      && Capped(s'.scores, limit)
      && (limit < F32_MAX ==>
            neighbor in s'.scores && s'.scores[neighbor] <= s.scores[node] + transition(node, neighbor))
  {
  }

  // ----- taking the cheapest waiting node

  lemma PopSound<S(!new)>(start: S, s: Search<S>, expanded: seq<S>, e: PathEntry<S>, rest: seq<PathEntry<S>>)
    requires Sound(start, s, expanded) && Popped(s.heap, e, rest)
    ensures Sound(start, s.(heap := rest), expanded + [e.node]) && e.node in s.visited
    ensures Sound(start, s.(heap := rest), expanded)
  {
    assert InHeap(s.heap, e.node) by {
      var i :| 0 <= i < |s.heap| && s.heap[i] == e;
      assert s.heap[i].node == e.node;
    }
    forall i | 0 <= i < |rest|
      ensures rest[i].node in s.visited
    {
      assert rest[i] in multiset(rest);
    }
  }

  /** Once a node that is not wanted is popped and its neighbours are looked at, nothing is lost. */
  lemma ExpandSettles<S(!new)>(s: Search<S>, e: PathEntry<S>, rest: seq<PathEntry<S>>, s': Search<S>,
                               neighbors: S -> seq<S>, satisfied: S -> bool)
    requires Settled(s.visited, s.heap, neighbors, satisfied, {})
    requires Popped(s.heap, e, rest)
    requires Onward(s.(heap := rest), s', e.node) && s'.visited == s'.scores.Keys
    requires !satisfied(e.node) && forall n :: n in neighbors(e.node) ==> n in s'.scores
    ensures Settled(s'.visited, s'.heap, neighbors, satisfied, {})
  {
    hide InHeap;
    forall n | n in s'.visited
      ensures InHeap(s'.heap, n) || (!satisfied(n) && forall m :: m in neighbors(n) ==> m in s'.visited)
    {
      if n in s.visited && n != e.node && !InHeap(s'.heap, n) {
        assert !InHeap(s.heap, n);
      }
    }
  }

  /** What every poll with these functions preserves. */
  ghost predicate Keeps<S(!new)>(start: S, s: Search<S>, s': Search<S>, heuristic: S -> real, neighbors: S -> seq<S>,
          transition: (S, S) -> real) {
    && (Follows(s.cameFrom, neighbors) ==> Follows(s'.cameFrom, neighbors))
    && (Paid(s.cameFrom, s.scores, transition) ==> Paid(s'.cameFrom, s'.scores, transition))
    && (Guided(s, heuristic, neighbors) ==> Guided(s', heuristic, neighbors))
    && (Ordered(start, s, heuristic) ==> Ordered(start, s', heuristic))
  }

  lemma PopOrdered<S(!new)>(start: S, s: Search<S>, e: PathEntry<S>, rest: seq<PathEntry<S>>, heuristic: S -> real)
    requires Popped(s.heap, e, rest) && Ordered(start, s, heuristic)
    ensures Ordered(start, s.(heap := rest), heuristic)
  {
    forall i | 0 <= i < |rest|
      ensures rest[i] in s.heap
    {
      assert rest[i] in multiset(rest);
    }
  }

  lemma PopKeeps<S(!new)>(start: S, s: Search<S>, e: PathEntry<S>, rest: seq<PathEntry<S>>, heuristic: S -> real,
          neighbors: S -> seq<S>, transition: (S, S) -> real)
    requires Popped(s.heap, e, rest)
    ensures Keeps(start, s, s.(heap := rest), heuristic, neighbors, transition)
  {
    if Ordered(start, s, heuristic) {
      PopOrdered(start, s, e, rest, heuristic);
    }
  }

  lemma SoundMaps<S(!new)>(start: S, s: Search<S>, expanded: seq<S>)
    requires Sound(start, s, expanded)
    ensures s.visited == s.scores.Keys && start in s.visited && Grounded(start, s.cameFrom, s.scores)
    ensures DistinctNodes(s.heap) && Waiting(s.heap, s.visited, expanded)
    ensures s.cheapestNode.Some? ==> s.cheapestNode.value in s.visited
  {
  }

  function Limit(iter: nat, bound: real): real {
    iter as real * bound
  }

  lemma LimitStep(iter: nat, maxIters: nat, bound: real)
    requires iter < maxIters && bound >= 0.0 && Limit(maxIters, bound) < F32_MAX
    ensures Limit(iter + 1, bound) == Limit(iter, bound) + bound < F32_MAX
  {
    assert (iter + 1) as real <= maxIters as real;
    assert (iter + 1) as real * bound <= maxIters as real * bound;
  }

  lemma CappedMore<S(!new)>(scores: map<S, real>, node: S, limit: real, bound: real)
    requires Capped(scores, limit) && node in scores && bound >= 0.0
    ensures Capped(scores, limit + bound) && scores[node] + bound <= limit + bound
  {
  }

  /** No score exceeds `bound` per iteration, and no such score reaches `F32_MAX`. */
  ghost predicate InReach<S(!new)>(scores: map<S, real>, iter: nat, maxIters: nat, bound: real) {
    bound >= 0.0 && Limit(maxIters, bound) < F32_MAX && Capped(scores, Limit(iter, bound))
  }

  lemma VisitedPopped<S(!new)>(s: Search<S>, rest: seq<PathEntry<S>>, s': Search<S>,
          node: S, transition: (S, S) -> real)
    ensures VisitedFrom(s.(heap := rest), s', node, transition) <==> VisitedFrom(s, s', node, transition)
  {
  }

  lemma VisitKeeps<S(!new)>(start: S, s: Search<S>, expanded: seq<S>, e: PathEntry<S>, rest: seq<PathEntry<S>>,
                            heuristic: S -> real, neighbors: S -> seq<S>, transition: (S, S) -> real)
    requires Sound(start, s, expanded) && Popped(s.heap, e, rest) && Positive(transition)
    ensures var s' := RelaxedAll(s.(heap := rest), e.node, neighbors(e.node), heuristic, transition);
      && Sound(start, s', expanded + [e.node]) && Keeps(start, s, s', heuristic, neighbors, transition)
      && VisitedFrom(s, s', e.node, transition)
  {
    hide Ordered, Guided, Paid, Follows, Sound, Popped, RelaxedAll, VisitedFrom, Onward;
    PopSound(start, s, expanded, e, rest);
    PopKeeps(start, s, e, rest, heuristic, neighbors, transition);
    VisitedPopped(s, rest, RelaxedAll(s.(heap := rest), e.node, neighbors(e.node), heuristic, transition),
      e.node, transition);
    ExpandOrdered(start, s.(heap := rest), expanded + [e.node], e.node, neighbors(e.node), heuristic, transition);
    ExpandSound(start, s.(heap := rest), expanded + [e.node], e.node, neighbors(e.node), heuristic, transition);
    ExpandKeeps(start, s.(heap := rest), expanded + [e.node], e.node,
      neighbors(e.node), heuristic, neighbors, transition);
  }

  /** Only neighbours of `node` are visited besides what was. */
  lemma {:induction false} ExpandVisits<S(!new)>(s: Search<S>, node: S, ns: seq<S>, heuristic: S -> real,
                                                 transition: (S, S) -> real)
    ensures forall n :: n in RelaxedAll(s, node, ns, heuristic, transition).visited ==> n in s.visited || n in ns
  {
    if ns != [] {
      ExpandVisits(s, node, ns[..|ns| - 1], heuristic, transition);
    }
  }

  /** One iteration goes one edge further. */
  lemma VisitReached<S(!new)>(start: S, s: Search<S>, node: S, heuristic: S -> real, neighbors: S -> seq<S>,
          transition: (S, S) -> real, len: nat)
    requires Reached(neighbors, start, s.visited, len) && node in s.visited
    ensures Reached(neighbors, start, RelaxedAll(s, node, neighbors(node), heuristic, transition).visited, len + 1)
  {
    ExpandVisits(s, node, neighbors(node), heuristic, transition);
    hide RelaxedAll, WalkTo;
    forall n | n in RelaxedAll(s, node, neighbors(node), heuristic, transition).visited
      ensures WalkTo(neighbors, start, n, len + 1)
    {
      if n in s.visited {
        WalkLonger(neighbors, start, n, len, len + 1);
      } else {
        WalkOn(neighbors, start, node, n, len);
      }
    }
  }

  lemma AffordableHere<S(!new)>(neighbors: S -> seq<S>, start: S, transition: (S, S) -> real, nodes: set<S>,
                                node: S, len: nat, more: nat, bound: real)
    requires Affordable(neighbors, start, transition, more, bound) && len <= more
    requires Reached(neighbors, start, nodes, len) && node in nodes
    ensures forall n :: n in neighbors(node) ==> transition(node, n) <= bound
  {
    hide WalkTo;
    WalkLonger(neighbors, start, node, len, more);
  }

  lemma VisitSettles<S(!new)>(start: S, s: Search<S>, expanded: seq<S>, e: PathEntry<S>, rest: seq<PathEntry<S>>,
                              heuristic: S -> real, neighbors: S -> seq<S>, transition: (S, S) -> real,
                              satisfied: S -> bool,
                              iter: nat, maxIters: nat, bound: real)
    requires Sound(start, s, expanded) && Popped(s.heap, e, rest) && Positive(transition)
    requires !satisfied(e.node) && iter < maxIters
    ensures Reached(neighbors, start, s.visited, iter + 1) ==>
      var s' := RelaxedAll(s.(heap := rest), e.node, neighbors(e.node), heuristic, transition);
      Reached(neighbors, start, s'.visited, iter + 2)
    ensures Reached(neighbors, start, s.visited, iter + 1) && Affordable(neighbors, start, transition, maxIters, bound)
            && InReach(s.scores, iter, maxIters, bound) ==>
      var s' := RelaxedAll(s.(heap := rest), e.node, neighbors(e.node), heuristic, transition);
      && InReach(s'.scores, iter + 1, maxIters, bound)
      && (Settled(s.visited, s.heap, neighbors, satisfied, {}) ==>
          Settled(s'.visited, s'.heap, neighbors, satisfied, {}))
  {
    PopSound(start, s, expanded, e, rest);
    hide Reached, Affordable, WalkTo;
    if Reached(neighbors, start, s.visited, iter + 1) {
      VisitReached(start, s.(heap := rest), e.node, heuristic, neighbors, transition, iter + 1);
    }
    if Reached(neighbors, start, s.visited, iter + 1) && Affordable(neighbors, start, transition, maxIters, bound)
       && InReach(s.scores, iter, maxIters, bound) {
      AffordableHere(neighbors, start, transition, s.visited, e.node, iter + 1, maxIters, bound);
      LimitStep(iter, maxIters, bound);
      VisitReaches(start, s, expanded, e, rest, heuristic, neighbors, transition, bound, Limit(iter, bound));
      VisitOnward(start, s, expanded, e, rest, heuristic, neighbors, transition);
      hide Sound, Settled, RelaxedAll, InHeap, Capped, Popped, Onward, Limit;
      if Settled(s.visited, s.heap, neighbors, satisfied, {}) {
        var s' := RelaxedAll(s.(heap := rest), e.node, neighbors(e.node), heuristic, transition);
        ExpandSettles(s, e, rest, s', neighbors, satisfied);
      }
    }
  }

  lemma VisitOnward<S(!new)>(start: S, s: Search<S>, expanded: seq<S>, e: PathEntry<S>, rest: seq<PathEntry<S>>,
                             heuristic: S -> real, neighbors: S -> seq<S>, transition: (S, S) -> real)
    requires Sound(start, s, expanded) && Popped(s.heap, e, rest) && Positive(transition)
    ensures var s' := RelaxedAll(s.(heap := rest), e.node, neighbors(e.node), heuristic, transition);
      Onward(s.(heap := rest), s', e.node) && s'.visited == s'.scores.Keys
  {
    hide RelaxedAll, InHeap;
    PopSound(start, s, expanded, e, rest);
    ExpandSound(start, s.(heap := rest), expanded, e.node, neighbors(e.node), heuristic, transition);
  }

  lemma VisitReaches<S(!new)>(start: S, s: Search<S>, expanded: seq<S>, e: PathEntry<S>, rest: seq<PathEntry<S>>,
                              heuristic: S -> real, neighbors: S -> seq<S>, transition: (S, S) -> real,
                              bound: real, limit: real)
    requires Sound(start, s, expanded) && Popped(s.heap, e, rest) && Positive(transition)
    requires forall n :: n in neighbors(e.node) ==> transition(e.node, n) <= bound
    requires bound >= 0.0 && Capped(s.scores, limit) && limit + bound < F32_MAX
    ensures var s' := RelaxedAll(s.(heap := rest), e.node, neighbors(e.node), heuristic, transition);
      Capped(s'.scores, limit + bound) && forall n :: n in neighbors(e.node) ==> n in s'.scores
  {
    PopSound(start, s, expanded, e, rest);
    SoundMaps(start, s, expanded);
    CappedMore(s.scores, e.node, limit, bound);
    hide RelaxedAll, Sound, Capped;
    ExpandReaches(start, s.(heap := rest), expanded, e.node, neighbors(e.node), heuristic,
      transition, bound, limit + bound);
  }

  /** No waiting node is due before `n`. */
  ghost predicate IsNextDue<S(!new)>(start: S, s: Search<S>, heuristic: S -> real, n: S) {
    forall i :: 0 <= i < |s.heap| ==>
      Due(start, s.first, heuristic, n) <= Due(start, s.first, heuristic, s.heap[i].node)
  }

  /** Among the nodes whose score has not improved while they waited, the one taken has the
      least score and heuristic together. */
  lemma NextMinimises<S(!new)>(start: S, s: Search<S>, heuristic: S -> real, n: S, m: S)
    requires Improved(s) && IsNextDue(start, s, heuristic, n) && InHeap(s.heap, m)
    requires n in s.scores && m in s.scores && n != start && m != start && s.scores[m] == s.first[m]
    ensures s.scores[n] + heuristic(n) <= s.scores[m] + heuristic(m)
  {
    var i :| 0 <= i < |s.heap| && s.heap[i].node == m;
  }

  lemma CheapestIsNextDue<S(!new)>(start: S, s: Search<S>, heuristic: S -> real, e: PathEntry<S>)
    requires Ordered(start, s, heuristic) && e in s.heap && forall x :: x in s.heap ==> e.cost <= x.cost
    ensures IsNextDue(start, s, heuristic, e.node)
  {
  }

  /** Taking a node out. */
  lemma PopTurns<S(!new)>(start: S, s: Search<S>, expanded: seq<S>, born: map<S, nat>, e: PathEntry<S>,
                          rest: seq<PathEntry<S>>, heuristic: S -> real)
    requires InTurn(start, s, expanded, born, heuristic) && Popped(s.heap, e, rest)
    requires IsNextDue(start, s, heuristic, e.node)
    ensures InTurn(start, s.(heap := rest), expanded, born, heuristic)
    ensures IsNextDue(start, s.(heap := rest), heuristic, e.node)
  {
    forall k | 0 <= k < |rest|
      ensures rest[k] in s.heap
    {
      assert rest[k] in multiset(rest);
    }
  }

  /** Expanding it. */
  lemma VisitTurns<S(!new)>(start: S, s: Search<S>, expanded: seq<S>, born: map<S, nat>, e: PathEntry<S>,
                            rest: seq<PathEntry<S>>, s': Search<S>, born': map<S, nat>, heuristic: S -> real,
                            transition: (S, S) -> real)
    requires Waiting(s.heap, s.visited, expanded) && InTurn(start, s, expanded, born, heuristic)
    requires Popped(s.heap, e, rest) && IsNextDue(start, s, heuristic, e.node)
    requires Onward(s.(heap := rest), s', e.node) && VisitedFrom(s, s', e.node, transition)
    requires born'.Keys == s'.visited
    requires forall n :: n in s'.visited ==> born'[n] == if n in born then born[n] else |expanded| + 1
    ensures InTurn(start, s', expanded + [e.node], born', heuristic)
  {
    var expanded' := expanded + [e.node];
    assert e.node in s.visited;
    assert forall i :: 0 <= i < |expanded'| ==> expanded'[i] in s.visited;
    assert forall n :: n in s.visited ==> Due(start, s'.first, heuristic, n) == Due(start, s.first, heuristic, n);
    hide Due, VisitedFrom;
    forall i, k | 0 <= i < |expanded'| && 0 <= k < |s'.heap| && s'.heap[k].node in born' && born'[s'.heap[k].node] <= i
      ensures Due(start, s'.first, heuristic, expanded'[i]) <= Due(start, s'.first, heuristic, s'.heap[k].node)
    {
      var m := s'.heap[k].node;
      assert InHeap(s'.heap, m);
      assert m in s.visited && InHeap(rest, m) && InHeap(s.heap, m);
      var k0 :| 0 <= k0 < |s.heap| && s.heap[k0].node == m;
    }
    forall i, j | 0 <= i < j < |expanded'| && expanded'[j] in born' && born'[expanded'[j]] <= i
      ensures Due(start, s'.first, heuristic, expanded'[i]) <= Due(start, s'.first, heuristic, expanded'[j])
    {
      if j == |expanded| {
        assert InHeap(s.heap, e.node);
        var k0 :| 0 <= k0 < |s.heap| && s.heap[k0].node == e.node;
      }
    }
  }

  /** All that one iteration keeps. */
  lemma VisitAll<S(!new)>(start: S, s: Search<S>, expanded: seq<S>, e: PathEntry<S>, rest: seq<PathEntry<S>>,
                          heuristic: S -> real, neighbors: S -> seq<S>, transition: (S, S) -> real,
                          satisfied: S -> bool, iter: nat, maxIters: nat, bound: real)
    requires Sound(start, s, expanded) && Popped(s.heap, e, rest) && Positive(transition)
    requires !satisfied(e.node) && iter < maxIters
    ensures e.node in s.scores && s.visited == s.scores.Keys
    ensures var s' := RelaxedAll(s.(heap := rest), e.node, neighbors(e.node), heuristic, transition);
      && Sound(start, s', expanded + [e.node]) && Keeps(start, s, s', heuristic, neighbors, transition)
      && VisitedFrom(s, s', e.node, transition)
      && (Reached(neighbors, start, s.visited, iter + 1) ==> Reached(neighbors, start, s'.visited, iter + 2))
      && (Reached(neighbors, start, s.visited, iter + 1) && Affordable(neighbors, start, transition, maxIters, bound)
          && InReach(s.scores, iter, maxIters, bound) ==>
            && InReach(s'.scores, iter + 1, maxIters, bound)
            && (Settled(s.visited, s.heap, neighbors, satisfied, {}) ==>
                  Settled(s'.visited, s'.heap, neighbors, satisfied, {})))
  {
    SoundMaps(start, s, expanded);
    PopSound(start, s, expanded, e, rest);
    hide *;
    VisitKeeps(start, s, expanded, e, rest, heuristic, neighbors, transition);
    VisitSettles(start, s, expanded, e, rest, heuristic, neighbors, transition, satisfied, iter, maxIters, bound);
  }

  lemma PopAll<S(!new)>(start: S, s: Search<S>, expanded: seq<S>, e: PathEntry<S>, rest: seq<PathEntry<S>>,
                        heuristic: S -> real, neighbors: S -> seq<S>, transition: (S, S) -> real)
    requires Sound(start, s, expanded) && Popped(s.heap, e, rest)
    ensures Sound(start, s.(heap := rest), expanded) && e.node in s.visited
    ensures Keeps(start, s, s.(heap := rest), heuristic, neighbors, transition)
  {
    PopSound(start, s, expanded, e, rest);
    PopKeeps(start, s, e, rest, heuristic, neighbors, transition);
  }

  function Born<S>(born: map<S, nat>, visited: set<S>, now: nat): map<S, nat> {
    map n | n in visited :: if n in born then born[n] else now
  }

  lemma VisitBorn<S(!new)>(start: S, s: Search<S>, expanded: seq<S>, born: map<S, nat>, e: PathEntry<S>,
                           rest: seq<PathEntry<S>>, heuristic: S -> real, neighbors: S -> seq<S>,
                           transition: (S, S) -> real)
    requires Sound(start, s, expanded) && Popped(s.heap, e, rest) && Positive(transition)
    ensures var s' := RelaxedAll(s.(heap := rest), e.node, neighbors(e.node), heuristic, transition);
      Ordered(start, s, heuristic) && InTurn(start, s, expanded, born, heuristic)
      && IsNextDue(start, s, heuristic, e.node) ==>
        && Ordered(start, s', heuristic)
        && InTurn(start, s', expanded + [e.node], Born(born, s'.visited, |expanded + [e.node]|), heuristic)
  {
    SoundMaps(start, s, expanded);
    VisitOnward(start, s, expanded, e, rest, heuristic, neighbors, transition);
    VisitKeeps(start, s, expanded, e, rest, heuristic, neighbors, transition);
    hide RelaxedAll, Sound, Popped, InTurn, IsNextDue, Onward, VisitedFrom, Waiting, Positive, Ordered, Guided, Paid;
    if InTurn(start, s, expanded, born, heuristic) && IsNextDue(start, s, heuristic, e.node) {
      var s' := RelaxedAll(s.(heap := rest), e.node, neighbors(e.node), heuristic, transition);
      VisitTurns(start, s, expanded, born, e, rest, s', Born(born, s'.visited, |expanded + [e.node]|),
        heuristic, transition);
    }
  }

  class Astar<S(==, !new)> {
    ghost const start: S
    const maxIters: nat
    var iter: nat
    var heap: seq<PathEntry<S>>
    var cameFrom: map<S, S>
    var scores: map<S, real>
    var finalScores: map<S, real>
    var visited: set<S>
    var cheapestNode: Option<S>
    var cheapestCost: Option<real>
    /** The nodes whose neighbours have been looked at, in that order. */
    ghost var expanded: seq<S>

    /** The score every node was visited with. */
    ghost var first: map<S, real>
    /** How many nodes had been expanded by then. */
    ghost var born: map<S, nat>

    ghost function State(): Search<S>
      reads this
    {
      Search(heap, cameFrom, scores, finalScores, visited, cheapestNode, cheapestCost, first)
    }

    /** Nodes are taken in the order of score and heuristic. */
    ghost predicate Turns(heuristic: S -> real)
      reads this
    {
      Ordered(start, State(), heuristic) && InTurn(start, State(), expanded, born, heuristic)
    }

    ghost predicate Valid()
      reads this
    {
      Sound(start, State(), expanded)
    }

    ghost predicate Within(bound: real)
      reads this
    {
      InReach(scores, iter, maxIters, bound)
    }

    /** Every node visited is as few edges from the start as there were iterations. */
    ghost predicate Near(neighbors: S -> seq<S>)
      reads this
    {
      Reached(neighbors, start, visited, iter + 1)
    }

    /** No cost can come to the largest number. */
    ghost predicate Affords(neighbors: S -> seq<S>, transition: (S, S) -> real, bound: real)
      reads this
    {
      Within(bound) && Near(neighbors) && Affordable(neighbors, start, transition, maxIters, bound)
    }

    /** Nothing reachable has been dropped. */
    ghost predicate Explored(neighbors: S -> seq<S>, satisfied: S -> bool)
      reads this
    {
      Settled(visited, heap, neighbors, satisfied, {})
    }

    constructor (maxIters: nat, start: S, heuristic: S -> real)
      ensures Valid() && this.start == start && this.maxIters == maxIters && iter == 0 && expanded == []
      ensures forall bound :: bound >= 0.0 && Limit(maxIters, bound) < F32_MAX ==> Within(bound)
      ensures forall neighbors :: Near(neighbors)
      ensures forall neighbors, satisfied :: Explored(neighbors, satisfied)
      ensures forall neighbors :: Guided(State(), heuristic, neighbors)
      ensures forall neighbors: S -> seq<S> :: Follows(cameFrom, neighbors)
      ensures forall transition: (S, S) -> real :: Paid(cameFrom, scores, transition)
      ensures forall heuristic :: Turns(heuristic)
    {
      this.start := start;
      this.maxIters := maxIters;
      iter := 0;
      heap := [PathEntry(0.0, start)];
      cameFrom := map[];
      scores := map[start := 0.0];
      finalScores := map[start := heuristic(start)];
      visited := {start};
      cheapestNode, cheapestCost := None, None;
      expanded := [];
      first := map[start := 0.0];
      born := map[start := 0];
      new;
      assert heap[0].node == start;
      assert InHeap(heap, start);
      forall neighbors
        ensures Near(neighbors)
      {
        assert Walk(neighbors, [start]);
      }
    }

    /** `reconstruct_path_to`: the predecessors of `end`, reversed. */
    method ReconstructPathTo(end: S) returns (path: seq<S>)
      requires Grounded(start, cameFrom, scores) && end in scores
      ensures Genuine(start, cameFrom, path) && path[|path| - 1] == end
    {
      hide Below;
      path := [end];
      var cnode := end;
      while cnode in cameFrom
        invariant cnode in scores && path != [] && path[0] == cnode && path[|path| - 1] == end
        invariant forall i :: 0 < i < |path| ==> path[i] in cameFrom && cameFrom[path[i]] == path[i - 1]
        decreases if cnode in scores then Below(scores, scores[cnode]) else {}
      {
        PredecessorIsBelow(start, cameFrom, scores, cnode);
        cnode := cameFrom[cnode];
        path := [cnode] + path;
      }
    }

    /** The path to the node kept for an unfinished search, empty if there is none. */
    method BestSoFar() returns (path: seq<S>)
      requires Valid()
      ensures IsBestSoFar(path)
    {
      path := [];
      if cheapestNode.Some? {
        path := ReconstructPathTo(cheapestNode.value);
      }
    }

    /** One turn of the inner loop of `poll`. */
    method Relax(node: S, neighbor: S, heuristic: S -> real, transition: (S, S) -> real)
      requires node in scores && visited == scores.Keys
      modifies this
      ensures State() == Relaxed(old(State()), node, neighbor, heuristic, transition)
      ensures node in scores && visited == scores.Keys
      ensures iter == old(iter) && expanded == old(expanded) && born == old(born)
    {
      var cost := scores[node] + transition(node, neighbor);
      if cost < (if neighbor in scores then scores[neighbor] else F32_MAX) {
        Record(node, neighbor, cost, heuristic(neighbor));
      }
    }

    /** Its updates, for a neighbour reached at less cost than before. */
    method Record(node: S, neighbor: S, cost: real, h: real)
      modifies this
      ensures State() == Reach(old(State()), node, neighbor, cost, h)
      ensures iter == old(iter) && expanded == old(expanded) && born == old(born)
    {
      cameFrom := cameFrom[neighbor := node];
      scores := scores[neighbor := cost];
      var neighborCost := cost + h;
      finalScores := finalScores[neighbor := neighborCost];
      if (if cheapestCost.Some? then h < cheapestCost.value else true) {
        cheapestNode := Some(node);
        cheapestCost := Some(h);
      }
      if neighbor !in visited {
        first := first[neighbor := cost];
        visited := visited + {neighbor};
        heap := heap + [PathEntry(neighborCost, neighbor)];
      }
      assert visited == old(visited) + {neighbor};
    }

    /** The inner loop of `poll`. */
    method Expand(node: S, heuristic: S -> real, neighbors: S -> seq<S>, transition: (S, S) -> real)
      requires node in scores && visited == scores.Keys
      modifies this
      ensures State() == RelaxedAll(old(State()), node, neighbors(node), heuristic, transition)
      ensures iter == old(iter) && expanded == old(expanded) && born == old(born)
    {
      hide RelaxedAll, Relaxed;
      var ns := neighbors(node);
      NoneYet(State(), node, ns, heuristic, transition);
      for k := 0 to |ns|
        invariant State() == RelaxedAll(old(State()), node, ns[..k], heuristic, transition)
        invariant node in scores && visited == scores.Keys
        invariant iter == old(iter) && expanded == old(expanded) && born == old(born)
      {
        OneMore(old(State()), node, ns, k, heuristic, transition);
        Relax(node, ns[k], heuristic, transition);
      }
      assert ns[..|ns|] == ns;
    }

    /** Taking a waiting node of least cost. */
    method Pop(ghost heuristic: S -> real) returns (e: PathEntry<S>)
      requires Valid() && heap != []
      modifies this`heap
      ensures State() == old(State()).(heap := heap)
      ensures Popped(old(heap), e, heap) && IsCheapest(old(heap), e.node)
      ensures old(Turns(heuristic)) ==>
        && IsNextDue(start, old(State()), heuristic, e.node) && IsNextDue(start, State(), heuristic, e.node)
        && Turns(heuristic)
    {
      ghost var s := State();
      SoundMaps(start, s, expanded);
      hide *;
      var rest;
      e, rest := PopMin(heap);
      if Ordered(start, s, heuristic) && InTurn(start, s, expanded, born, heuristic) {
        CheapestIsNextDue(start, s, heuristic, e);
        PopTurns(start, s, expanded, born, e, rest, heuristic);
        PopOrdered(start, s, e, rest, heuristic);
      }
      heap := rest;
    }

    /** Expanding the node taken. */
    method Advance(node: S, heuristic: S -> real, neighbors: S -> seq<S>, transition: (S, S) -> real)
      requires node in scores && visited == scores.Keys
      modifies this
      ensures State() == RelaxedAll(old(State()), node, neighbors(node), heuristic, transition)
      ensures iter == old(iter) + 1 && expanded == old(expanded) + [node]
      ensures born == Born(old(born), visited, |expanded|)
    {
      hide RelaxedAll, Born;
      Expand(node, heuristic, neighbors, transition);
      iter := iter + 1;
      expanded := expanded + [node];
      born := Born(born, visited, |expanded|);
    }

    lemma Unfolded(s: Search<S>, heuristic: S -> real, neighbors: S -> seq<S>, transition: (S, S) -> real,
                   satisfied: S -> bool, bound: real)
      requires State() == s
      ensures Valid() == Sound(start, s, expanded)
      ensures heap == s.heap && visited == s.visited && scores == s.scores
      ensures Near(neighbors) == Reached(neighbors, start, s.visited, iter + 1)
      ensures Within(bound) == InReach(s.scores, iter, maxIters, bound)
      ensures Affords(neighbors, transition, bound) ==
              (Within(bound) && Near(neighbors) && Affordable(neighbors, start, transition, maxIters, bound))
      ensures Explored(neighbors, satisfied) == Settled(s.visited, s.heap, neighbors, satisfied, {})
      ensures Turns(heuristic) == (Ordered(start, s, heuristic) && InTurn(start, s, expanded, born, heuristic))
    {
    }

    /** The rest of an iteration of `poll`, with a node taken that is not wanted; `s` is the
        state before it was. */
    method Leave(e: PathEntry<S>, heuristic: S -> real, neighbors: S -> seq<S>, transition: (S, S) -> real,
            ghost s: Search<S>, ghost satisfied: S -> bool, ghost bound: real)
      requires Sound(start, s, expanded) && Popped(s.heap, e, heap) && State() == s.(heap := heap)
      requires Positive(transition) && iter < maxIters && !satisfied(e.node)
      modifies this
      ensures Valid() && Keeps(start, s, State(), heuristic, neighbors, transition)
      ensures iter == old(iter) + 1 && expanded == old(expanded) + [e.node]
      ensures born == Born(old(born), visited, |expanded|)
      // the neighbours are visited by way of the node
      ensures VisitedFrom(s, State(), e.node, transition)
      ensures old(Near(neighbors)) ==> Near(neighbors)
      ensures old(Affords(neighbors, transition, bound)) ==> Within(bound)
      ensures old(Affords(neighbors, transition, bound)) && Settled(s.visited, s.heap, neighbors, satisfied, {}) ==>
        Explored(neighbors, satisfied)
      // and the order is kept
      ensures (Ordered(start, s, heuristic) && InTurn(start, s, old(expanded), old(born), heuristic)
               && IsNextDue(start, s, heuristic, e.node)) ==> Turns(heuristic)
    {
      hide Sound, RelaxedAll, Settled, InHeap, Capped, InReach, Keeps, Reached, Affordable, Popped, Due,
        DistinctNodes, Positive, InTurn, Ordered, IsNextDue, VisitedFrom, Waiting, Born, Near, Within, Affords,
        Explored, Valid, Turns;
      ghost var s' := RelaxedAll(s.(heap := heap), e.node, neighbors(e.node), heuristic, transition);
      Unfolded(s.(heap := heap), heuristic, neighbors, transition, satisfied, bound);
      VisitAll(start, s, expanded, e, heap, heuristic, neighbors, transition, satisfied, iter, maxIters, bound);
      VisitBorn(start, s, expanded, born, e, heap, heuristic, neighbors, transition);
      Advance(e.node, heuristic, neighbors, transition);
      Unfolded(s', heuristic, neighbors, transition, satisfied, bound);
    }

    /** One iteration of `poll` with a node waiting. */
    method Visit(heuristic: S -> real, neighbors: S -> seq<S>, transition: (S, S) -> real, satisfied: S -> bool,
            ghost bound: real)
      returns (found: Option<S>)
      requires Valid() && Positive(transition) && heap != [] && iter < maxIters
      modifies this
      ensures Valid() && Keeps(start, old(State()), State(), heuristic, neighbors, transition)
      ensures old(Near(neighbors)) ==> Near(neighbors)
      ensures old(Affords(neighbors, transition, bound)) ==> Within(bound)
      ensures found.None? ==>
        && iter == old(iter) + 1
        && |expanded| == |old(expanded)| + 1 && old(expanded) <= expanded
        && IsCheapest(old(heap), expanded[|old(expanded)|]) && !satisfied(expanded[|old(expanded)|])
      ensures found.None? && old(Affords(neighbors, transition, bound)) && old(Explored(neighbors, satisfied)) ==>
        Explored(neighbors, satisfied)
      // the node taken is the one next due; its neighbours are visited by way of it
      ensures old(Turns(heuristic)) ==> Turns(heuristic)
      ensures found.None? && old(Turns(heuristic)) ==>
        IsNextDue(start, old(State()), heuristic, expanded[|old(expanded)|])
      ensures found.None? ==> VisitedFrom(old(State()), State(), expanded[|old(expanded)|], transition)
      ensures found.Some? && old(Turns(heuristic)) ==> IsNextDue(start, State(), heuristic, found.value)
      ensures found.Some? ==>
        && iter == old(iter) && expanded == old(expanded)
        && found.value in visited && IsCheapest(old(heap), found.value) && satisfied(found.value)
    {
      hide Sound, RelaxedAll, Settled, InHeap, Capped, InReach, IsCheapest, Reached, Affordable, Popped, Due, Guided,
        DistinctNodes, Positive, Grounded, Relaxed, InTurn, Ordered, IsNextDue, Onward, VisitedFrom, Waiting, Follows,
        Paid, Valid, Near, Within, Affords, Explored, Turns, Born, Keeps;
      ghost var s := State();
      Unfolded(s, heuristic, neighbors, transition, satisfied, bound);
      var e := Pop(heuristic);
      Unfolded(s.(heap := heap), heuristic, neighbors, transition, satisfied, bound);
      PopAll(start, s, expanded, e, heap, heuristic, neighbors, transition);
      if satisfied(e.node) {
        return Some(e.node);
      }
      Leave(e, heuristic, neighbors, transition, s, satisfied, bound);
      return None;
    }

    lemma NothingLeft(neighbors: S -> seq<S>, satisfied: S -> bool)
      requires Valid() && heap == [] && Explored(neighbors, satisfied)
      ensures forall walk :: Walk(neighbors, walk) && walk[0] == start ==> !satisfied(walk[|walk| - 1])
    {
      SoundMaps(start, State(), expanded);
      NoneReachable(start, visited, neighbors, satisfied);
    }

    lemma Scored()
      requires Valid()
      ensures Grounded(start, cameFrom, scores) && visited == scores.Keys
    {
    }

    ghost predicate IsBestSoFar(path: seq<S>)
      reads this
    {
      if cheapestNode.None? then path == []
      else Genuine(start, cameFrom, path) && path[|path| - 1] == cheapestNode.value
    }

    /** `poll`: at most `iters` more iterations, and never more than `maxIters` in all. */
    method Poll(iters: nat, heuristic: S -> real, neighbors: S -> seq<S>, transition: (S, S) -> real,
            satisfied: S -> bool, ghost bound: real)
      returns (result: PathResult<S>)
      requires Valid() && Positive(transition)
      modifies this
      ensures Valid() && Keeps(start, old(State()), State(), heuristic, neighbors, transition)
      // a node is expanded in every iteration, none twice, and none that is wanted
      ensures old(expanded) <= expanded && |expanded| - |old(expanded)| == iter - old(iter) <= iters
      ensures forall i :: |old(expanded)| <= i < |expanded| ==> !satisfied(expanded[i])
      // always the one next due by score and heuristic
      ensures old(Turns(heuristic)) ==> Turns(heuristic)
      // costs that cannot reach the largest number: nothing is dropped
      ensures old(Near(neighbors)) ==> Near(neighbors)
      ensures old(Affords(neighbors, transition, bound)) ==> Affords(neighbors, transition, bound)
      ensures old(Affords(neighbors, transition, bound)) && old(Explored(neighbors, satisfied)) && !result.Found? ==>
                Explored(neighbors, satisfied)
      ensures match result
        case Found(path) =>
          && Genuine(start, cameFrom, path) && satisfied(path[|path| - 1])
          && (old(Turns(heuristic)) ==> IsNextDue(start, State(), heuristic, path[|path| - 1]))
        case NoPath(path) =>
          && heap == [] && IsBestSoFar(path)
          && (old(Affords(neighbors, transition, bound)) && old(Explored(neighbors, satisfied)) ==>
                forall walk :: Walk(neighbors, walk) && walk[0] == start ==> !satisfied(walk[|walk| - 1]))
        case Exhausted(path) => iter >= maxIters && IsBestSoFar(path)
        case Pending => iter == old(iter) + iters < maxIters
    {
      hide Sound, Settled, InReach, Follows, Paid, Guided, Affordable, Reached, InTurn, Ordered, IsNextDue, VisitedFrom,
        Valid, Near, Within, Explored, Turns, Grounded, Walk;
      var iterLimit := if maxIters < iter + iters then maxIters else iter + iters;
      ghost var near := Near(neighbors);
      ghost var bounded := Affords(neighbors, transition, bound);
      ghost var complete := bounded && Explored(neighbors, satisfied);
      while iter < iterLimit
        invariant Valid() && Keeps(start, old(State()), State(), heuristic, neighbors, transition)
        invariant old(iter) <= iter && (iter == old(iter) || iter <= iterLimit)
        invariant old(expanded) <= expanded && |expanded| - |old(expanded)| == iter - old(iter)
        invariant forall i :: |old(expanded)| <= i < |expanded| ==> !satisfied(expanded[i])
        invariant old(Turns(heuristic)) ==> Turns(heuristic)
        invariant near ==> Near(neighbors)
        invariant bounded ==> Affords(neighbors, transition, bound)
        invariant complete ==> Explored(neighbors, satisfied)
      {
        if heap == [] {
          var path := BestSoFar();
          if complete {
            NothingLeft(neighbors, satisfied);
          }
          return NoPath(path);
        }
        var found := Visit(heuristic, neighbors, transition, satisfied, bound);
        if found.Some? {
          Scored();
          var path := ReconstructPathTo(found.value);
          return Found(path);
        }
      }
      if iter >= maxIters {
        var path := BestSoFar();
        return Exhausted(path);
      }
      return Pending;
    }
  }

  lemma NoneReachable<S(!new)>(start: S, visited: set<S>, neighbors: S -> seq<S>, satisfied: S -> bool)
    requires Settled(visited, [], neighbors, satisfied, {}) && start in visited
    ensures forall walk :: Walk(neighbors, walk) && walk[0] == start ==> !satisfied(walk[|walk| - 1])
  {
    forall walk | Walk(neighbors, walk) && walk[0] == start
      ensures !satisfied(walk[|walk| - 1])
    {
      NothingMissed(visited, neighbors, satisfied, walk);
    }
  }

  lemma NoneYet<S>(s: Search<S>, node: S, ns: seq<S>, heuristic: S -> real, transition: (S, S) -> real)
    ensures RelaxedAll(s, node, ns[..0], heuristic, transition) == s
  {
  }

  lemma OneMore<S>(s: Search<S>, node: S, ns: seq<S>, k: nat, heuristic: S -> real, transition: (S, S) -> real)
    requires k < |ns|
    ensures RelaxedAll(s, node, ns[..k + 1], heuristic, transition) ==
            Relaxed(RelaxedAll(s, node, ns[..k], heuristic, transition), node, ns[k], heuristic, transition)
  {
    assert ns[..k + 1][..k] == ns[..k];
  }
}
