/** Model of design/dijkstra.py: single-pair shortest path in an undirected
    multigraph, with an adjacency list and a binary heap whose stale entries are
    skipped when popped ("lazy deletion"). */
module Dijkstra {

  /** Any type of nodes with equality. */
  type Node(==, !new)

  datatype Edge = Edge(u: Node, v: Node, w: real)

  datatype Answer = NoRoute | Route(distance: real, path: seq<Node>)

  // ---------- What the program is about: walks in the undirected graph ----------

  ghost predicate Adjacent(edges: seq<Edge>, a: Node, b: Node, w: real) {
    Edge(a, b, w) in edges || Edge(b, a, w) in edges
  }

  /** A walk, built from its first node by one hop after the other. */
  datatype Walk = At(node: Node) | Hop(walk: Walk, w: real, to: Node) {
    ghost function First(): Node {
      match this
      case At(n) => n
      case Hop(p, _, _) => p.First()
    }

    ghost function Last(): Node {
      if At? then node else to
    }

    ghost function Cost(): real {
      match this
      case At(_) => 0.0
      case Hop(p, x, _) => p.Cost() + x
    }

    ghost function Nodes(): seq<Node> {
      match this
      case At(n) => [n]
      case Hop(p, _, t) => p.Nodes() + [t]
    }

    ghost predicate In(edges: seq<Edge>) {
      match this
      case At(_) => true
      case Hop(p, x, t) => p.In(edges) && Adjacent(edges, p.Last(), t, x)
    }

    ghost predicate Joins(edges: seq<Edge>, start: Node, end: Node) {
      In(edges) && First() == start && Last() == end
    }
  }

  ghost predicate Distinct(s: seq<Node>) {
    forall i, j :: 0 <= i < j < |s| ==> s[i] != s[j]
  }

  ghost predicate NonNegative(edges: seq<Edge>) {
    forall e :: e in edges ==> e.w >= 0.0
  }

  // ---------- The adjacency list ----------

  type Adjacency = map<Node, seq<(Node, real)>>

  ghost predicate Lists(adj: Adjacency, edges: seq<Edge>) {
    forall a, b, w :: (a in adj && (b, w) in adj[a]) <==> Adjacent(edges, a, b, w)
  }

  /** `adj.setdefault(a, []).append((b, w))`. */
  method Append(adj: Adjacency, a: Node, b: Node, w: real) returns (r: Adjacency)
    ensures r.Keys == adj.Keys + {a}
    ensures r[a] == (if a in adj then adj[a] else []) + [(b, w)]
    ensures forall n :: n in adj && n != a ==> r[n] == adj[n]
  {
    r := adj[a := (if a in adj then adj[a] else []) + [(b, w)]];
  }

  method BuildAdjacency(edges: seq<Edge>) returns (adj: Adjacency)
    ensures Lists(adj, edges)
  {
    adj := map[];
    for i := 0 to |edges|
      invariant Lists(adj, edges[..i])
    {
      var e := edges[i];
      ghost var before := adj;
      assert edges[..i + 1] == edges[..i] + [e];
      adj := Append(adj, e.u, e.v, e.w);
      adj := Append(adj, e.v, e.u, e.w);
      forall a, b, w
        ensures (a in adj && (b, w) in adj[a]) <==> Adjacent(edges[..i + 1], a, b, w)
      {
        assert (a in before && (b, w) in before[a]) <==> Adjacent(edges[..i], a, b, w);
        assert Edge(a, b, w) in edges[..i + 1] <==> Edge(a, b, w) in edges[..i] || Edge(a, b, w) == e;
        assert Edge(b, a, w) in edges[..i + 1] <==> Edge(b, a, w) in edges[..i] || Edge(b, a, w) == e;
      }
    }
    assert edges[..|edges|] == edges;
  }

  // ---------- The heap ----------

  type Heap = multiset<(real, Node)>

  ghost predicate IsMin(x: (real, Node), pq: Heap) {
    x in pq && forall y :: y in pq ==> x.0 <= y.0
  }

  /** `heapq.heappop`: some entry of least distance; which one among equal distances is left open. */
  method HeapPop(pq: Heap) returns (d: real, u: Node, rest: Heap)
    requires |pq| > 0
    ensures IsMin((d, u), pq)
    ensures rest == pq - multiset{(d, u)}
  {
    var scan := pq;
    var x :| x in scan;
    scan := scan - multiset{x};
    while |scan| > 0
      invariant x in pq && scan <= pq
      invariant forall y :: y in pq && y !in scan ==> x.0 <= y.0
      decreases |scan|
    {
      var y :| y in scan;
      ghost var was := scan;
      scan := scan - multiset{y};
      if y.0 < x.0 { x := y; }
    }
    d, u, rest := x.0, x.1, pq - multiset{x};
  }

  // ---------- The search ----------

  /** Everything the main loop keeps. `rank` numbers the settled nodes in the order they were
      settled; `expanded` are the settled nodes whose whole adjacency list has been relaxed. */
  ghost predicate Tree(edges: seq<Edge>, start: Node, dist: map<Node, real>, prev: map<Node, Node>,
                       done: set<Node>, rank: map<Node, nat>)
  {
    && start in dist && dist[start] == 0.0 && start !in prev
    && done <= dist.Keys && rank.Keys == done
    && (forall v :: v in dist ==> dist[v] >= 0.0)
    && (forall v :: v in dist && v != start ==> v in prev && Hangs(edges, dist, done, rank, v, prev[v]))
  }

  /** `p` is a settled node through which `v` is reached at its current distance. */
  ghost predicate Hangs(edges: seq<Edge>, dist: map<Node, real>, done: set<Node>, rank: map<Node, nat>, v: Node,
                        p: Node) {
    && v in dist && p in dist && p in done && p in rank
    && (v in done && v in rank ==> rank[p] < rank[v])
    && exists w :: Adjacent(edges, p, v, w) && dist[v] == dist[p] + w
  }

  ghost predicate Frontier(dist: map<Node, real>, done: set<Node>, pq: Heap) {
    && (forall x :: x in pq ==> x.1 in dist && dist[x.1] <= x.0)
    && (forall v :: v in dist && v !in done ==> (dist[v], v) in pq)
    && (forall u, x :: u in done && x in pq && u in dist ==> dist[u] <= x.0)
  }

  ghost predicate Relaxed(edges: seq<Edge>, dist: map<Node, real>, expanded: set<Node>) {
    forall u, v, w :: u in expanded && u in dist && Adjacent(edges, u, v, w) ==> v in dist && dist[v] <= dist[u] + w
  }

  ghost function Universe(edges: seq<Edge>, start: Node): set<Node> {
    {start} + (set e | e in edges :: e.u) + (set e | e in edges :: e.v)
  }

  /** No walk can undercut the frontier: a walk from `start` either ends in an expanded node that it
      does not undercut, or is at least as long as some node still on the frontier. */
  lemma {:induction false} FrontierBound(edges: seq<Edge>, start: Node, dist: map<Node, real>, done: set<Node>,
                                         walk: Walk)
    requires NonNegative(edges) && Relaxed(edges, dist, done)
    requires start in dist && dist[start] == 0.0 && done <= dist.Keys
    requires walk.In(edges) && walk.First() == start
    ensures walk.Cost() >= 0.0
    ensures (walk.Last() in done && dist[walk.Last()] <= walk.Cost())
         || exists y :: y in dist && y !in done && dist[y] <= walk.Cost()
  {
    match walk
    case At(n) =>
    case Hop(p, w, to) =>
      FrontierBound(edges, start, dist, done, p);
      if !(p.Last() in done && dist[p.Last()] <= p.Cost()) {
        var y :| y in dist && y !in done && dist[y] <= p.Cost();
        assert dist[y] <= walk.Cost();
      }
  }

  /** The walk that the `prev` links spell out, from `start` to a settled node. */
  ghost function TreeWalk(edges: seq<Edge>, start: Node, dist: map<Node, real>, prev: map<Node, Node>,
                          done: set<Node>, rank: map<Node, nat>, v: Node): (walk: Walk)
    requires Tree(edges, start, dist, prev, done, rank) && v in done
    ensures walk.Joins(edges, start, v) && walk.Cost() == dist[v]
    decreases rank[v]
  {
    if v == start then At(start)
    else
      assert Hangs(edges, dist, done, rank, v, prev[v]);
      var w :| Adjacent(edges, prev[v], v, w) && dist[v] == dist[prev[v]] + w;
      Hop(TreeWalk(edges, start, dist, prev, done, rank, prev[v]), w, v)
  }

  lemma {:induction false} TreeWalkIsSimple(edges: seq<Edge>, start: Node, dist: map<Node, real>, prev: map<Node, Node>,
                         done: set<Node>, rank: map<Node, nat>, v: Node)
    requires Tree(edges, start, dist, prev, done, rank) && v in done
    ensures var nodes := TreeWalk(edges, start, dist, prev, done, rank, v).Nodes();
            Distinct(nodes) && forall n :: n in nodes ==> n in done && rank[n] <= rank[v]
    decreases rank[v]
  {
    if v != start { TreeWalkIsSimple(edges, start, dist, prev, done, rank, prev[v]); }
  }

  // Lowering the distance of an unsettled node `v` through a settled node `u` keeps each invariant.

  lemma LoweringKeepsTree(edges: seq<Edge>, start: Node, dist: map<Node, real>, prev: map<Node, Node>,
                          done: set<Node>, rank: map<Node, nat>, u: Node, v: Node, w: real)
    requires Tree(edges, start, dist, prev, done, rank)
    requires u in done && v !in done && v != start && w >= 0.0 && Adjacent(edges, u, v, w)
    ensures Tree(edges, start, dist[v := dist[u] + w], prev[v := u], done, rank)
  {}

  lemma LoweringKeepsFrontier(dist: map<Node, real>, done: set<Node>, pq: Heap, v: Node, nd: real)
    requires Frontier(dist, done, pq) && v !in done
    requires v in dist ==> nd < dist[v]
    requires forall n :: n in done && n in dist ==> dist[n] <= nd
    ensures Frontier(dist[v := nd], done, pq + multiset{(nd, v)})
  {}

  lemma LoweringKeepsRelaxed(edges: seq<Edge>, dist: map<Node, real>, expanded: set<Node>, v: Node, nd: real)
    requires Relaxed(edges, dist, expanded) && v !in expanded
    requires v in dist ==> nd < dist[v]
    ensures Relaxed(edges, dist[v := nd], expanded)
  {}

  /** What holds while the adjacency list of the settled node `u` is being relaxed. */
  ghost predicate Expanding(edges: seq<Edge>, start: Node, dist: map<Node, real>, prev: map<Node, Node>, pq: Heap,
                            settled: set<Node>, rank: map<Node, nat>, u: Node)
  {
    && u in settled && start in settled && settled <= dist.Keys
    && Tree(edges, start, dist, prev, settled, rank)
    && Frontier(dist, settled, pq)
    && Relaxed(edges, dist, settled - {u})
    && (forall n :: n in settled ==> dist[n] <= dist[u])
    && (forall x :: x in pq ==> x.1 in Universe(edges, start))
  }

  lemma LoweringKeepsExpanding(edges: seq<Edge>, start: Node, dist: map<Node, real>, prev: map<Node, Node>, pq: Heap,
                               settled: set<Node>, rank: map<Node, nat>, u: Node, v: Node, w: real)
    requires Expanding(edges, start, dist, prev, pq, settled, rank, u)
    requires Adjacent(edges, u, v, w) && w >= 0.0 && v in Universe(edges, start)
    requires v in dist ==> dist[u] + w < dist[v]
    ensures v !in settled
    ensures var nd := dist[u] + w;
            Expanding(edges, start, dist[v := nd], prev[v := u], pq + multiset{(nd, v)}, settled, rank, u)
  {
    hide Tree, Frontier, Relaxed, Universe, Adjacent;
    var nd := dist[u] + w;
    assert v !in settled;
    LoweringKeepsTree(edges, start, dist, prev, settled, rank, u, v, w);
    LoweringKeepsFrontier(dist, settled, pq, v, nd);
    LoweringKeepsRelaxed(edges, dist, settled - {u}, v, nd);
  }

  lemma ExpandedIsRelaxed(edges: seq<Edge>, dist: map<Node, real>, settled: set<Node>, u: Node, adj: Adjacency)
    requires Lists(adj, edges) && u in dist && Relaxed(edges, dist, settled - {u})
    requires u in adj ==> forall x :: x in adj[u] ==> x.0 in dist && dist[x.0] <= dist[u] + x.1
    ensures Relaxed(edges, dist, settled)
  {}

  /** The inner loop: relax the adjacency list of `u`, settled last. */
  method Expand(edges: seq<Edge>, ghost start: Node, adj: Adjacency, u: Node,
                dist0: map<Node, real>, prev0: map<Node, Node>, ghost settled: set<Node>, pq0: Heap,
                ghost rank: map<Node, nat>)
    returns (dist: map<Node, real>, prev: map<Node, Node>, pq: Heap)
    requires NonNegative(edges) && Lists(adj, edges)
    requires Expanding(edges, start, dist0, prev0, pq0, settled, rank, u)
    ensures Expanding(edges, start, dist, prev, pq, settled, rank, u)
    ensures Relaxed(edges, dist, settled)
  {
    hide Tree, Frontier, Relaxed, Universe, NonNegative;
    dist, prev, pq := dist0, prev0, pq0;
    var list := if u in adj then adj[u] else [];
    for i := 0 to |list|
      invariant Expanding(edges, start, dist, prev, pq, settled, rank, u)
      invariant forall x :: x in list[..i] ==> x.0 in dist && dist[x.0] <= dist[u] + x.1
    {
      var (v, w) := list[i];
      AdjacentInUniverse(edges, start, adj, u, i);
      assert list[..i + 1] == list[..i] + [(v, w)];
      var nd := dist[u] + w;
      if v !in dist || nd < dist[v] {
        LoweringKeepsExpanding(edges, start, dist, prev, pq, settled, rank, u, v, w);
        dist, prev, pq := dist[v := nd], prev[v := u], pq + multiset{(nd, v)};
      }
    }
    assert list[..|list|] == list;
    ExpandedIsRelaxed(edges, dist, settled, u, adj);
  }

  lemma AdjacentInUniverse(edges: seq<Edge>, start: Node, adj: Adjacency, u: Node, i: nat)
    requires NonNegative(edges) && Lists(adj, edges) && u in adj && i < |adj[u]|
    ensures var (v, w) := adj[u][i]; Adjacent(edges, u, v, w) && w >= 0.0 && v in Universe(edges, start)
  {
    var (v, w) := adj[u][i];
    assert (v, w) in adj[u];
    if Edge(u, v, w) in edges { assert Edge(u, v, w).v == v; } else { assert Edge(v, u, w).u == v; }
  }

  lemma SettlingKeepsHanging(edges: seq<Edge>, dist: map<Node, real>, done: set<Node>, rank: map<Node, nat>, u: Node,
                             v: Node, p: Node)
    requires Hangs(edges, dist, done, rank, v, p) && rank.Keys == done && u !in done
    requires forall n :: n in done ==> rank[n] < |done|
    ensures Hangs(edges, dist, done + {u}, rank[u := |done|], v, p)
  {}

  lemma SettlingKeepsTree(edges: seq<Edge>, start: Node, dist: map<Node, real>, prev: map<Node, Node>,
                          done: set<Node>, rank: map<Node, nat>, u: Node)
    requires Tree(edges, start, dist, prev, done, rank) && u in dist && u !in done
    requires forall v :: v in done ==> rank[v] < |done|
    ensures Tree(edges, start, dist, prev, done + {u}, rank[u := |done|])
  {
    hide Hangs;
    forall v | v in dist && v != start
      ensures v in prev && Hangs(edges, dist, done + {u}, rank[u := |done|], v, prev[v])
    {
      SettlingKeepsHanging(edges, dist, done, rank, u, v, prev[v]);
    }
  }

  lemma SettlingKeepsFrontier(dist: map<Node, real>, done: set<Node>, pq: Heap, d: real, u: Node)
    requires Frontier(dist, done, pq) && IsMin((d, u), pq) && u !in done
    ensures u in dist && d == dist[u]
    ensures Frontier(dist, done + {u}, pq - multiset{(d, u)})
  {
    var pq', done' := pq - multiset{(d, u)}, done + {u};
    assert (dist[u], u) in pq;
    assert forall x :: x in pq' ==> x in pq;
    forall v | v in dist && v !in done' ensures (dist[v], v) in pq' { assert (dist[v], v) in pq; }
  }

  lemma SettlingKeepsExpanding(edges: seq<Edge>, start: Node, dist: map<Node, real>, prev: map<Node, Node>,
                               done: set<Node>, rank: map<Node, nat>, pq: Heap, d: real, u: Node)
    requires Searching(edges, start, dist, prev, done, rank, pq)
    requires IsMin((d, u), pq) && u !in done
    ensures d == dist[u]
    ensures Expanding(edges, start, dist, prev, pq - multiset{(d, u)}, done + {u}, rank[u := |done|], u)
  {
    SettlingKeepsFrontier(dist, done, pq, d, u);
    SettlingKeepsTree(edges, start, dist, prev, done, rank, u);
    assert forall x :: x in pq - multiset{(d, u)} ==> x in pq;
    assert done + {u} - {u} == done;
    assert forall v :: v in done ==> v in dist && dist[v] <= dist[u];
    hide Relaxed, Universe;
  }

  /** What holds before every pop. */
  ghost predicate Searching(edges: seq<Edge>, start: Node, dist: map<Node, real>, prev: map<Node, Node>,
                            done: set<Node>, rank: map<Node, nat>, pq: Heap)
  {
    && Tree(edges, start, dist, prev, done, rank)
    && Frontier(dist, done, pq)
    && Relaxed(edges, dist, done)
    && done <= Universe(edges, start)
    && (forall v :: v in done ==> rank[v] < |done|)
    && (forall x :: x in pq ==> x.1 in Universe(edges, start))
    && (done == {} ==> pq == multiset{(0.0, start)} && dist.Keys == {start})
    && (done != {} ==> start in done)
  }

  ghost predicate Reachable(edges: seq<Edge>, start: Node, end: Node) {
    exists walk: Walk :: walk.Joins(edges, start, end)
  }

  ghost predicate Shortest(edges: seq<Edge>, start: Node, end: Node, distance: real, path: seq<Node>) {
    && (exists walk: Walk :: walk.Joins(edges, start, end) && walk.Nodes() == path && walk.Cost() == distance)
    && (forall walk: Walk :: walk.Joins(edges, start, end) ==> distance <= walk.Cost())
  }

  function Reverse(s: seq<Node>): seq<Node> {
    if s == [] then [] else Reverse(s[1..]) + [s[0]]
  }

  lemma {:induction false} ReverseSnoc(s: seq<Node>, n: Node)
    ensures Reverse(s + [n]) == [n] + Reverse(s)
  {
    if s == [] {
      assert s + [n] == [n];
    } else {
      assert (s + [n])[1..] == s[1..] + [n];
      ReverseSnoc(s[1..], n);
    }
  }

  /** The walk along `prev` from a settled `end` back to `start`, and its reversal. */
  method WalkBack(edges: seq<Edge>, start: Node, end: Node, ghost dist: map<Node, real>, prev: map<Node, Node>,
                  ghost done: set<Node>, ghost rank: map<Node, nat>) returns (path: seq<Node>)
    requires Tree(edges, start, dist, prev, done, rank) && end in done
    ensures path == TreeWalk(edges, start, dist, prev, done, rank, end).Nodes()
  {
    var back := [end];
    var last := end;
    while last != start
      invariant last in done && |back| > 0 && last == back[|back| - 1]
      invariant TreeWalk(edges, start, dist, prev, done, rank, end).Nodes()
             == TreeWalk(edges, start, dist, prev, done, rank, last).Nodes() + Reverse(back[..|back| - 1])
      decreases rank[last]
    {
      assert Hangs(edges, dist, done, rank, last, prev[last]);
      ReverseSnoc(back[..|back| - 1], last);
      assert (back + [prev[last]])[..|back|] == back[..|back| - 1] + [last];
      back := back + [prev[last]];
      last := prev[last];
    }
    ReverseSnoc(back[..|back| - 1], last);
    assert back == back[..|back| - 1] + [last];
    path := Reverse(back);
  }

  lemma SkippingKeepsSearching(edges: seq<Edge>, start: Node, dist: map<Node, real>, prev: map<Node, Node>,
                               done: set<Node>, rank: map<Node, nat>, pq: Heap, d: real, u: Node)
    requires Searching(edges, start, dist, prev, done, rank, pq) && (d, u) in pq && u in done
    ensures Searching(edges, start, dist, prev, done, rank, pq - multiset{(d, u)})
  {}

  lemma ExpandedKeepsSearching(edges: seq<Edge>, start: Node, dist: map<Node, real>, prev: map<Node, Node>,
                               done: set<Node>, rank: map<Node, nat>, pq: Heap, u: Node)
    requires Expanding(edges, start, dist, prev, pq, done, rank, u) && Relaxed(edges, dist, done)
    requires done <= Universe(edges, start) && forall v :: v in done ==> rank[v] < |done|
    ensures Searching(edges, start, dist, prev, done, rank, pq)
  {}

  /** When `end` is popped unsettled, the tree walk to it is shortest and simple. */
  lemma PoppedIsShortest(edges: seq<Edge>, start: Node, end: Node, dist: map<Node, real>, prev: map<Node, Node>,
                         done: set<Node>, rank: map<Node, nat>, pq: Heap, d: real)
    requires NonNegative(edges) && Searching(edges, start, dist, prev, done, rank, pq)
    requires IsMin((d, end), pq) && end !in done
    requires Tree(edges, start, dist, prev, done + {end}, rank[end := |done|])
    ensures var walk := TreeWalk(edges, start, dist, prev, done + {end}, rank[end := |done|], end);
            Shortest(edges, start, end, dist[end], walk.Nodes()) && Distinct(walk.Nodes())
  {
    TreeWalkIsSimple(edges, start, dist, prev, done + {end}, rank[end := |done|], end);
    forall walk: Walk | walk.Joins(edges, start, end) ensures dist[end] <= walk.Cost() {
      FrontierBound(edges, start, dist, done, walk);
      var y :| y in dist && y !in done && dist[y] <= walk.Cost();
      assert (dist[y], y) in pq && (dist[end], end) in pq;
    }
  }

  /** When the heap runs empty, exactly the settled nodes are reachable. */
  lemma ExhaustedIsUnreachable(edges: seq<Edge>, start: Node, end: Node, dist: map<Node, real>, prev: map<Node, Node>,
                               done: set<Node>, rank: map<Node, nat>, pq: Heap)
    requires NonNegative(edges) && Searching(edges, start, dist, prev, done, rank, pq)
    requires |pq| == 0 && end !in done
    ensures end !in dist && !Reachable(edges, start, end)
  {
    forall v | v in dist ensures v in done { assert (dist[v], v) !in pq; }
    forall walk: Walk ensures !walk.Joins(edges, start, end) {
      if walk.Joins(edges, start, end) { FrontierBound(edges, start, dist, done, walk); }
    }
  }

  lemma SettlingKeepsCount(edges: seq<Edge>, start: Node, dist: map<Node, real>, prev: map<Node, Node>,
                           done: set<Node>, rank: map<Node, nat>, pq: Heap, d: real, u: Node)
    requires Searching(edges, start, dist, prev, done, rank, pq) && (d, u) in pq && u !in done
    ensures done + {u} <= Universe(edges, start)
    ensures forall v :: v in done + {u} ==> v in rank[u := |done|] && rank[u := |done|][v] < |done + {u}|
    ensures Universe(edges, start) - (done + {u}) < Universe(edges, start) - done
  {}

  /** The program. With non-negative weights the answer is a shortest walk, which is moreover simple,
      and there is no answer exactly when `end` cannot be reached. */
  method Run(edges: seq<Edge>, start: Node, end: Node) returns (r: Answer)
    requires NonNegative(edges)
    ensures r.NoRoute? <==> !Reachable(edges, start, end)
    ensures r.Route? ==> Shortest(edges, start, end, r.distance, r.path) && Distinct(r.path)
  {
    var adj := BuildAdjacency(edges);
    var dist, prev, done: set<Node>, pq: Heap := map[start := 0.0], map[], {}, multiset{(0.0, start)};
    ghost var rank: map<Node, nat> := map[];
    StartKeepsSearching(edges, start);
    hide Searching, Frontier, Relaxed, Universe, NonNegative, Tree, Shortest, Distinct, Reachable;
    while |pq| > 0
      invariant Searching(edges, start, dist, prev, done, rank, pq)
      invariant end !in done
      decreases Universe(edges, start) - done, |pq|
    {
      var d, u, rest := HeapPop(pq);
      if u in done {
        SkippingKeepsSearching(edges, start, dist, prev, done, rank, pq, d, u);
        pq := rest;
        continue;
      }
      SettlingKeepsExpanding(edges, start, dist, prev, done, rank, pq, d, u);
      SettlingKeepsCount(edges, start, dist, prev, done, rank, pq, d, u);
      if u == end {
        PoppedIsShortest(edges, start, end, dist, prev, done, rank, pq, d);
      }
      done, rank, pq := done + {u}, rank[u := |done|], rest;
      if u == end {
        break;
      }
      dist, prev, pq := Expand(edges, start, adj, u, dist, prev, done, pq, rank);
      ExpandedKeepsSearching(edges, start, dist, prev, done, rank, pq, u);
    }
    if end !in done {
      ExhaustedIsUnreachable(edges, start, end, dist, prev, done, rank, pq);
    }
    if end !in dist {
      return NoRoute;
    }
    var path := WalkBack(edges, start, end, dist, prev, done, rank);
    ShortestIsReachable(edges, start, end, dist[end], path);
    return Route(dist[end], path);
  }

  lemma StartKeepsSearching(edges: seq<Edge>, start: Node)
    ensures Searching(edges, start, map[start := 0.0], map[], {}, map[], multiset{(0.0, start)})
  {}

  lemma ShortestIsReachable(edges: seq<Edge>, start: Node, end: Node, distance: real, path: seq<Node>)
    requires Shortest(edges, start, end, distance, path)
    ensures Reachable(edges, start, end)
  {}
}
