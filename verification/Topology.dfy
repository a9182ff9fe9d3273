/** The start order of a workflow's nodes: Kahn's algorithm over a graph that may have parallel edges
    and feedback cycles, with the nodes it cannot order appended at the end. */
module Topology {

  datatype Arc<+N> = Arc(source: N, target: N)

  function Elems<N>(s: seq<N>): set<N> {
    set x | x in s
  }

  ghost predicate Distinct<N>(s: seq<N>) {
    forall i, j :: 0 <= i < j < |s| ==> s[i] != s[j]
  }

  // ---------------------------------------------------------------------------------------------
  // Paths and cycles
  // ---------------------------------------------------------------------------------------------

  ghost predicate Path<N>(edges: seq<Arc<N>>, p: seq<N>) {
    p != [] && forall i :: 0 <= i < |p| - 1 ==> Arc(p[i], p[i + 1]) in edges
  }

  ghost predicate Cycle<N>(edges: seq<Arc<N>>, p: seq<N>) {
    Path(edges, p) && |p| >= 2 && p[0] == p[|p| - 1]
  }

  /** v lies on a cycle or downstream of one. */
  ghost predicate Fed<N(!new)>(edges: seq<Arc<N>>, v: N) {
    exists c, p :: Cycle(edges, c) && Path(edges, p) && p[0] == c[0] && p[|p| - 1] == v
  }

  /** Every edge into the first n nodes of the order comes from an earlier one. */
  ghost predicate Ordered<N(!new)>(edges: seq<Arc<N>>, order: seq<N>, n: nat) {
    n <= |order| && forall i, u :: 0 <= i < n && Arc(u, order[i]) in edges ==> u in order[..i]
  }

  /** Following a path backwards from an ordered node moves strictly towards the front. */
  lemma {:induction false} PathBack<N(!new)>(edges: seq<Arc<N>>, order: seq<N>, n: nat, p: seq<N>, k: nat) returns (j: nat)
    requires Ordered(edges, order, n) && Path(edges, p) && k < n && order[k] == p[|p| - 1]
    ensures j + |p| - 1 <= k && order[j] == p[0]
    decreases |p|
  {
    if |p| == 1 {
      j := k;
    } else {
      var u := p[|p| - 2];
      assert Arc(u, p[|p| - 2 + 1]) in edges;
      assert u in order[..k];
      var i :| 0 <= i < k && order[i] == u;
      j := PathBack(edges, order, n, p[..|p| - 1], i);
    }
  }

  lemma OrderedNotFed<N(!new)>(edges: seq<Arc<N>>, order: seq<N>, n: nat, k: nat)
    requires Ordered(edges, order, n) && Distinct(order) && k < n
    ensures !Fed(edges, order[k])
  {
    if Fed(edges, order[k]) {
      var c, p :| Cycle(edges, c) && Path(edges, p) && p[0] == c[0] && p[|p| - 1] == order[k];
      var i := PathBack(edges, order, n, p, k);
      var j := PathBack(edges, order, n, c, i);
      assert false;
    }
  }

  lemma {:induction false} Pigeonhole<N>(s: seq<N>, holes: set<N>) returns (i: nat, j: nat)
    requires Elems(s) <= holes && |s| > |holes|
    ensures i < j < |s| && s[i] == s[j]
    decreases |s|
  {
    var last := |s| - 1;
    if s[last] in s[..last] {
      i :| 0 <= i < last && s[i] == s[last];
      j := last;
    } else {
      assert forall x :: x in s[..last] ==> x in s;
      i, j := Pigeonhole(s[..last], holes - {s[last]});
    }
  }

  ghost predicate HasPred<N>(edges: seq<Arc<N>>, left: set<N>, x: N) {
    exists u :: u in left && Arc(u, x) in edges
  }

  ghost predicate Preceded<N>(edges: seq<Arc<N>>, left: set<N>) {
    forall x {:trigger HasPred(edges, left, x)} :: x in left ==> HasPred(edges, left, x)
  }

  /** Walks n edges backwards inside a set in which every node has a predecessor. */
  lemma {:induction false} BackWalk<N>(edges: seq<Arc<N>>, left: set<N>, v: N, n: nat) returns (p: seq<N>)
    requires v in left && Preceded(edges, left)
    ensures |p| == n + 1 && Path(edges, p) && p[n] == v && Elems(p) <= left
    decreases n
  {
    if n == 0 {
      p := [v];
    } else {
      assert HasPred(edges, left, v);
      var u :| u in left && Arc(u, v) in edges;
      var q := BackWalk(edges, left, u, n - 1);
      p := q + [v];
    }
  }

  lemma LeftoverFed<N(!new)>(edges: seq<Arc<N>>, left: set<N>, v: N)
    requires v in left && Preceded(edges, left)
    ensures Fed(edges, v)
  {
    var p := BackWalk(edges, left, v, |left|);
    var i, j := Pigeonhole(p, left);
    var c := p[i..j + 1];
    assert Cycle(edges, c);
    assert Path(edges, p[i..]) && p[i..][0] == c[0] && p[i..][|p[i..]| - 1] == v;
  }

  // ---------------------------------------------------------------------------------------------
  // Counting edges, parallel ones each for itself
  // ---------------------------------------------------------------------------------------------

  /** The adjacency list of u: one entry per edge out of it, in edge order. */
  function Targets<N(==)>(edges: seq<Arc<N>>, u: N): seq<N> {
    if edges == [] then []
    else
      var last := |edges| - 1;
      Targets(edges[..last], u) + if edges[last].source == u then [edges[last].target] else []
  }

  /** The number of edges into v whose source is not done. */
  function Waiting<N(==)>(edges: seq<Arc<N>>, v: N, done: set<N>): nat {
    if edges == [] then 0
    else
      var last := |edges| - 1;
      Waiting(edges[..last], v, done) + if edges[last].target == v && edges[last].source !in done then 1 else 0
  }

  lemma {:induction false} WaitingAfter<N>(edges: seq<Arc<N>>, v: N, done: set<N>, u: N)
    requires u !in done
    ensures Waiting(edges, v, done) == Waiting(edges, v, done + {u}) + multiset(Targets(edges, u))[v]
  {
    if edges != [] {
      WaitingAfter(edges[..|edges| - 1], v, done, u);
    }
  }

  lemma {:induction false} WaitingZero<N(!new)>(edges: seq<Arc<N>>, v: N, done: set<N>)
    ensures Waiting(edges, v, done) == 0 <==> forall u :: Arc(u, v) in edges ==> u in done
  {
    if edges != [] {
      var init := edges[..|edges| - 1];
      WaitingZero(init, v, done);
      assert edges == init + [edges[|edges| - 1]];
      assert forall u :: Arc(u, v) in edges <==> Arc(u, v) in init || Arc(u, v) == edges[|edges| - 1];
    }
  }

  lemma {:induction false} TargetsAre<N>(edges: seq<Arc<N>>, u: N, v: N)
    ensures v in Targets(edges, u) ==> Arc(u, v) in edges
  {
    if edges != [] {
      TargetsAre(edges[..|edges| - 1], u, v);
    }
  }

  // ---------------------------------------------------------------------------------------------
  // Kahn's algorithm
  // ---------------------------------------------------------------------------------------------

  ghost predicate Closed<N(!new)>(nodes: set<N>, edges: seq<Arc<N>>) {
    forall e :: e in edges ==> e.source in nodes && e.target in nodes
  }

  function Get<N>(adj: map<N, seq<N>>, u: N): seq<N> {
    if u in adj then adj[u] else []
  }

  /** The first two loops: adjacency lists and in-degrees. */
  method CountDegrees<N(==, !new)>(nodes: set<N>, edges: seq<Arc<N>>) returns (adj: map<N, seq<N>>, inDegree: map<N, int>)
    requires Closed(nodes, edges)
    ensures inDegree.Keys == nodes
    ensures forall u :: Get(adj, u) == Targets(edges, u)
    ensures forall v :: v in nodes ==> inDegree[v] == Waiting(edges, v, {})
  {
    adj := map[];
    inDegree := map id | id in nodes :: 0;
    for i := 0 to |edges|
      invariant inDegree.Keys == nodes
      invariant forall u :: Get(adj, u) == Targets(edges[..i], u)
      invariant forall v :: v in nodes ==> inDegree[v] == Waiting(edges[..i], v, {})
    {
      var e := edges[i];
      assert edges[..i + 1][..i] == edges[..i] && edges[..i + 1][i] == e;
      adj := adj[e.source := Get(adj, e.source) + [e.target]];
      inDegree := inDegree[e.target := inDegree[e.target] + 1];
    }
    assert edges[..|edges|] == edges;
  }

  /** The state of Kahn's loop.  rest holds the targets of the current node still to be relaxed. */
  ghost predicate Kahn<N(!new)>(nodes: set<N>, edges: seq<Arc<N>>, order: seq<N>, queue: seq<N>,
                                inDegree: map<N, int>, rest: multiset<N>) {
    && Distinct(order + queue) && Elems(order + queue) <= nodes
    && inDegree.Keys == nodes
    && (forall v :: v in nodes ==> inDegree[v] == Waiting(edges, v, Elems(order)) + rest[v])
    && (forall v :: v in nodes ==> (inDegree[v] == 0 <==> v in order + queue))
    && Ordered(edges, order, |order|)
  }

  lemma KahnTakes<N(!new)>(nodes: set<N>, edges: seq<Arc<N>>, order: seq<N>, queue: seq<N>, inDegree: map<N, int>)
    requires Kahn(nodes, edges, order, queue, inDegree, multiset{}) && queue != [] && Closed(nodes, edges)
    ensures Kahn(nodes, edges, order + [queue[0]], queue[1..], inDegree, multiset(Targets(edges, queue[0])))
  {
    var curr := queue[0];
    assert order + [curr] + queue[1..] == order + queue;
    assert curr == (order + queue)[|order|];
    assert forall i :: 0 <= i < |order| ==> (order + queue)[i] == order[i];
    assert curr !in Elems(order);
    assert Elems(order + [curr]) == Elems(order) + {curr};
    forall v | v in nodes
      ensures inDegree[v] == Waiting(edges, v, Elems(order + [curr])) + multiset(Targets(edges, curr))[v]
    {
      WaitingAfter(edges, v, Elems(order), curr);
    }
    WaitingZero(edges, curr, Elems(order));
    forall i, u | 0 <= i < |order + [curr]| && Arc(u, (order + [curr])[i]) in edges ensures u in (order + [curr])[..i] {
      assert (order + [curr])[..i] == if i < |order| then order[..i] else order;
    }
  }

  lemma KahnBounds<N(!new)>(nodes: set<N>, edges: seq<Arc<N>>, order: seq<N>, queue: seq<N>, inDegree: map<N, int>)
    requires Kahn(nodes, edges, order, queue, inDegree, multiset{}) && queue != [] && Closed(nodes, edges)
    ensures |order| < |nodes| && Elems(Targets(edges, queue[0])) <= nodes
  {
    OrderFits(order + queue, nodes);
    forall v | v in Targets(edges, queue[0]) ensures v in nodes {
      TargetsAre(edges, queue[0], v);
    }
  }

  lemma KahnRelaxes<N(!new)>(nodes: set<N>, edges: seq<Arc<N>>, order: seq<N>, queue: seq<N>,
                             inDegree: map<N, int>, rest: multiset<N>, next: N)
    requires Kahn(nodes, edges, order, queue, inDegree, rest) && next in rest && next in nodes
    ensures Kahn(nodes, edges, order, if inDegree[next] == 1 then queue + [next] else queue,
                 inDegree[next := inDegree[next] - 1], rest - multiset{next})
  {
    assert inDegree[next] > 0 && next !in order + queue;
    if inDegree[next] == 1 {
      assert order + (queue + [next]) == (order + queue) + [next];
    }
  }

  /** Lowers the in-degree of every target of the node just ordered, and queues those that reach 0. */
  method Relax<N(==, !new)>(ghost nodes: set<N>, ghost edges: seq<Arc<N>>, ghost order: seq<N>, targets: seq<N>,
                            queue0: seq<N>, inDegree0: map<N, int>)
    returns (queue: seq<N>, inDegree: map<N, int>)
    requires Kahn(nodes, edges, order, queue0, inDegree0, multiset(targets)) && Elems(targets) <= nodes
    ensures Kahn(nodes, edges, order, queue, inDegree, multiset{})
  {
    queue, inDegree := queue0, inDegree0;
    for i := 0 to |targets|
      invariant inDegree.Keys == nodes && Kahn(nodes, edges, order, queue, inDegree, multiset(targets[i..]))
    {
      var next := targets[i];
      assert targets[i..] == [next] + targets[i + 1..];
      KahnRelaxes(nodes, edges, order, queue, inDegree, multiset(targets[i..]), next);
      inDegree := inDegree[next := inDegree[next] - 1];
      if inDegree[next] == 0 {
        queue := queue + [next];
      }
    }
  }

  lemma KahnStarts<N(!new)>(nodes: set<N>, edges: seq<Arc<N>>, queue: seq<N>, inDegree: map<N, int>)
    requires inDegree.Keys == nodes && Distinct(queue)
    requires forall v :: v in nodes ==> inDegree[v] == Waiting(edges, v, {})
    requires forall v :: v in queue <==> v in nodes && inDegree[v] == 0
    ensures Kahn(nodes, edges, [], queue, inDegree, multiset{})
  {
    assert [] + queue == queue;
    assert Elems<N>([]) == {};
  }

  /** What is left when the queue runs dry: every such node has a predecessor that is also left. */
  lemma KahnStops<N(!new)>(nodes: set<N>, edges: seq<Arc<N>>, order: seq<N>, inDegree: map<N, int>)
    requires Kahn(nodes, edges, order, [], inDegree, multiset{}) && Closed(nodes, edges)
    ensures Preceded(edges, nodes - Elems(order))
    ensures forall v :: v in nodes ==> v in inDegree && (v in order <==> inDegree[v] == 0) && inDegree[v] >= 0
    ensures inDegree.Keys == nodes && Distinct(order) && Elems(order) <= nodes && Ordered(edges, order, |order|)
  {
    var left := nodes - Elems(order);
    assert order + [] == order;
    forall x | x in left ensures HasPred(edges, left, x) {
      WaitingZero(edges, x, Elems(order));
      var u :| Arc(u, x) in edges && u !in Elems(order);
      assert u in left;
    }
  }

  /** Picks the nodes whose in-degree passes the test, in the arbitrary order of Go's map iteration. */
  method Pick<N(==, !new)>(inDegree: map<N, int>, zero: bool) returns (picked: seq<N>)
    ensures Distinct(picked)
    ensures forall v :: v in picked <==> v in inDegree && if zero then inDegree[v] == 0 else inDegree[v] > 0
  {
    picked := [];
    var todo := inDegree.Keys;
    while todo != {}
      invariant todo <= inDegree.Keys && Distinct(picked)
      invariant forall v :: v in picked <==>
        v in inDegree && v !in todo && if zero then inDegree[v] == 0 else inDegree[v] > 0
      decreases |todo|
    {
      var id :| id in todo;
      todo := todo - {id};
      if (if zero then inDegree[id] == 0 else inDegree[id] > 0) {
        picked := picked + [id];
      }
    }
  }

  /** Lists every node once.  The first `sorted` of them are in topological order, and the rest are
      exactly the nodes on a cycle or downstream of one. */
  method SortNodes<N(==, !new)>(nodes: set<N>, edges: seq<Arc<N>>) returns (order: seq<N>, ghost sorted: nat)
    requires Closed(nodes, edges)
    ensures Distinct(order) && Elems(order) == nodes
    ensures Ordered(edges, order, sorted)
    ensures forall v :: v in nodes ==> (v in order[sorted..] <==> Fed(edges, v))
    ensures sorted == |order| <==> !exists c :: Cycle(edges, c)
  {
    hide Kahn, Ordered, Fed, Preceded, Distinct;
    var adj, inDegree := CountDegrees(nodes, edges);
    var queue := Pick(inDegree, true);
    KahnStarts(nodes, edges, queue, inDegree);
    order := [];
    while queue != []
      invariant Kahn(nodes, edges, order, queue, inDegree, multiset{})
      decreases |nodes| - |order|
    {
      var curr := queue[0];
      KahnBounds(nodes, edges, order, queue, inDegree);
      KahnTakes(nodes, edges, order, queue, inDegree);
      queue, order := queue[1..], order + [curr];
      queue, inDegree := Relax(nodes, edges, order, Get(adj, curr), queue, inDegree);
    }
    KahnStops(nodes, edges, order, inDegree);
    OrderFits(order, nodes);
    sorted := |order|;
    var rest: seq<N> := [];
    assert Distinct(rest) by { NothingDistinct<N>(); }
    if |order| != |nodes| {
      rest := Pick(inDegree, false);
      assert forall v :: v in rest <==> v in nodes && v !in order;
    }
    assert Elems(rest) == nodes - Elems(order);
    SortedThenFed(nodes, edges, order, rest);
    order := order + rest;
    AcyclicIffAllSorted(nodes, edges, order, sorted);
  }

  /** An acyclic graph, and only an acyclic one, is ordered to the end. */
  lemma AcyclicIffAllSorted<N(!new)>(nodes: set<N>, edges: seq<Arc<N>>, order: seq<N>, sorted: nat)
    requires Closed(nodes, edges) && sorted <= |order| && Elems(order) == nodes
    requires forall v :: v in nodes ==> (v in order[sorted..] <==> Fed(edges, v))
    ensures sorted == |order| <==> !exists c :: Cycle(edges, c)
  {
    if sorted < |order| {
      assert order[sorted] in order[sorted..] && order[sorted] in Elems(order);
      assert Fed(edges, order[sorted]);
    }
    if c :| Cycle(edges, c) {
      assert Arc(c[0], c[0 + 1]) in edges;
      assert Path(edges, [c[0]]);
      assert [c[0]][0] == c[0] && [c[0]][|[c[0]]| - 1] == c[0];
      assert Fed(edges, c[0]);
    }
  }

  lemma NothingDistinct<N>()
    ensures Distinct<N>([])
  {
  }

  lemma SortedThenFed<N(!new)>(nodes: set<N>, edges: seq<Arc<N>>, order: seq<N>, rest: seq<N>)
    requires Distinct(order) && Distinct(rest) && Elems(order) <= nodes && Elems(rest) == nodes - Elems(order)
    requires Ordered(edges, order, |order|) && Preceded(edges, nodes - Elems(order))
    ensures var all := order + rest;
            && Distinct(all) && Elems(all) == nodes && Ordered(edges, all, |order|)
            && forall v :: v in nodes ==> (v in all[|order|..] <==> Fed(edges, v))
  {
    var all := order + rest;
    assert all[|order|..] == rest && Elems(all) == Elems(order) + Elems(rest);
    forall i, u | 0 <= i < |order| && Arc(u, all[i]) in edges ensures u in all[..i] {
      assert all[..i] == order[..i] && all[i] == order[i];
    }
    forall v | v in nodes ensures v in rest <==> Fed(edges, v) {
      if v in Elems(rest) {
        LeftoverFed(edges, nodes - Elems(order), v);
      } else {
        var k :| 0 <= k < |order| && order[k] == v;
        OrderedNotFed(edges, order, |order|, k);
      }
    }
    assert Distinct(all) by {
      forall i, j | 0 <= i < j < |all| ensures all[i] != all[j] {
        if i < |order| <= j {
          assert all[i] in Elems(order) && all[j] in Elems(rest);
        }
      }
    }
  }

  lemma {:induction false} OrderFits<N>(s: seq<N>, nodes: set<N>)
    requires Distinct(s) && Elems(s) <= nodes
    ensures |s| <= |nodes|
    ensures |s| == |nodes| ==> Elems(s) == nodes
    decreases |s|
  {
    if s != [] {
      var last := |s| - 1;
      assert forall x :: x in s[..last] ==> x in s && x != s[last];
      OrderFits(s[..last], nodes - {s[last]});
      assert Elems(s) == Elems(s[..last]) + {s[last]};
    }
  }
}
