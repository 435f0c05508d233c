/** The dependency graph (`build_dag` in src/planner/domain/solver/greedy.py) and its
    topological order, computed by Kahn's algorithm. */
module Graph {
  import opened Wrappers
  import opened Models

  datatype Edge = Edge(src: Id, dst: Id, link: LinkType, lag: int)

  ghost predicate Distinct(s: seq<Id>) {
    forall i, j :: 0 <= i < j < |s| ==> s[i] != s[j]
  }

  /** At most one edge per pair of nodes. */
  ghost predicate DistinctPairs(edges: seq<Edge>) {
    forall i, j :: 0 <= i < j < |edges| ==> edges[i].src != edges[j].src || edges[i].dst != edges[j].dst
  }

  datatype DiGraph = DiGraph(nodes: seq<Id>, edges: seq<Edge>) {
    ghost predicate Linked(u: Id, v: Id) {
      exists e :: e in edges && e.src == u && e.dst == v
    }

    ghost predicate EndsAreNodes() {
      forall e :: e in edges ==> e.src in nodes && e.dst in nodes
    }

    /** Distinct nodes, and at most one edge per pair of them. */
    ghost predicate Valid() {
      && Distinct(nodes)
      && EndsAreNodes()
      && DistinctPairs(edges)
    }

    /** A walk follows the edges from node to node. */
    ghost predicate IsWalk(w: seq<Id>) {
      && w != []
      && (forall n :: n in w ==> n in nodes)
      && (forall i :: 0 <= i < |w| - 1 ==> Linked(w[i], w[i + 1]))
    }

    ghost predicate HasCycle() {
      exists w :: IsWalk(w) && 2 <= |w| && w[0] == w[|w| - 1]
    }

    /** Every node once, and every edge forward. */
    ghost predicate IsTopologicalOrder(order: seq<Id>) {
      && (forall n :: n in order <==> n in nodes)
      && Distinct(order)
      && (forall i, j :: 0 <= i < |order| && 0 <= j < |order| && Linked(order[i], order[j]) ==> i < j)
    }
  }

  // Construction ----------------------------------------------------------

  /** Adding a node that is present changes nothing. */
  function AddNode(g: DiGraph, n: Id): DiGraph {
    if n in g.nodes then g else g.(nodes := g.nodes + [n])
  }

  function EdgeIndex(edges: seq<Edge>, u: Id, v: Id): (i: nat)
    ensures i <= |edges|
    ensures i < |edges| ==> edges[i].src == u && edges[i].dst == v
    ensures forall k :: 0 <= k < i ==> edges[k].src != u || edges[k].dst != v
  {
    if edges == [] then 0
    else if edges[0].src == u && edges[0].dst == v then 0
    else 1 + EdgeIndex(edges[1..], u, v)
  }

  /** An edge between the same two nodes overwrites the attributes of the earlier one. */
  function PutEdge(edges: seq<Edge>, e: Edge): seq<Edge> {
    var i := EdgeIndex(edges, e.src, e.dst);
    if i < |edges| then edges[i := e] else edges + [e]
  }

  function AddEdge(g: DiGraph, e: Edge): DiGraph {
    AddNode(AddNode(g, e.src), e.dst).(edges := PutEdge(g.edges, e))
  }

  function ToEdge(d: Dependency): Edge {
    Edge(d.dependsOn, d.taskId, d.link, d.lag)
  }

  function TaskNodes(tasks: seq<Task>): DiGraph {
    if tasks == [] then DiGraph([], [])
    else AddNode(TaskNodes(tasks[..|tasks| - 1]), tasks[|tasks| - 1].id)
  }

  function Dag(tasks: seq<Task>, deps: seq<Dependency>): DiGraph {
    if deps == [] then TaskNodes(tasks)
    else AddEdge(Dag(tasks, deps[..|deps| - 1]), ToEdge(deps[|deps| - 1]))
  }

  method BuildDag(tasks: seq<Task>, deps: seq<Dependency>) returns (g: DiGraph)
    ensures g == Dag(tasks, deps)
  {
    g := DiGraph([], []);
    for i := 0 to |tasks|
      invariant g == TaskNodes(tasks[..i])
    {
      assert tasks[..i + 1][..i] == tasks[..i];
      g := AddNode(g, tasks[i].id);
    }
    assert tasks[..|tasks|] == tasks;
    for i := 0 to |deps|
      invariant g == Dag(tasks, deps[..i])
    {
      assert deps[..i + 1][..i] == deps[..i];
      g := AddEdge(g, ToEdge(deps[i]));
    }
    assert deps[..|deps|] == deps;
  }

  /** The last dependency from `u` to `v` is the one that counts. */
  function LastEdge(deps: seq<Dependency>, u: Id, v: Id): Option<Edge> {
    if deps == [] then None
    else
      var d := deps[|deps| - 1];
      if d.dependsOn == u && d.taskId == v then Some(ToEdge(d))
      else LastEdge(deps[..|deps| - 1], u, v)
  }

  ghost predicate IsTaskId(tasks: seq<Task>, n: Id) {
    exists t :: t in tasks && t.id == n
  }

  ghost predicate IsEndpoint(deps: seq<Dependency>, n: Id) {
    exists d :: d in deps && (d.taskId == n || d.dependsOn == n)
  }

  lemma {:induction false} TaskNodesFaithful(tasks: seq<Task>)
    ensures TaskNodes(tasks).Valid() && TaskNodes(tasks).edges == []
    ensures forall n :: n in TaskNodes(tasks).nodes <==> IsTaskId(tasks, n)
  {
    if tasks != [] {
      var init, t := tasks[..|tasks| - 1], tasks[|tasks| - 1];
      TaskNodesFaithful(init);
      assert tasks == init + [t];
      assert forall n :: IsTaskId(tasks, n) <==> IsTaskId(init, n) || n == t.id;
    }
  }

  lemma AddNodeEffect(g: DiGraph, n: Id)
    requires g.Valid()
    ensures AddNode(g, n).Valid()
    ensures AddNode(g, n).edges == g.edges
    ensures forall x :: x in AddNode(g, n).nodes <==> x in g.nodes || x == n
  {
    if n !in g.nodes {
      var nodes := g.nodes + [n];
      forall i, j | 0 <= i < j < |nodes|
        ensures nodes[i] != nodes[j]
      {
        assert nodes[i] == g.nodes[i];
        assert j < |g.nodes| ==> nodes[j] == g.nodes[j];
      }
    }
  }

  lemma PutEdgeEffect(edges: seq<Edge>, e: Edge)
    requires DistinctPairs(edges)
    ensures DistinctPairs(PutEdge(edges, e))
    ensures forall x :: x in PutEdge(edges, e) <==>
              x == e || (x in edges && (x.src != e.src || x.dst != e.dst))
  {
    var i := EdgeIndex(edges, e.src, e.dst);
    var after := PutEdge(edges, e);
    assert after[i] == e;
    assert forall k :: 0 <= k < |edges| && k != i ==> after[k] == edges[k];
    forall x | x in edges && (x.src != e.src || x.dst != e.dst)
      ensures x in after
    {
      var k :| 0 <= k < |edges| && edges[k] == x;
      assert after[k] == x;
    }
  }

  /** The graph holds the tasks and the endpoints of the dependencies, and for every pair
      of nodes the last dependency stated between them. */
  lemma {:induction false} DagFaithful(tasks: seq<Task>, deps: seq<Dependency>)
    ensures Dag(tasks, deps).Valid()
    ensures forall n :: n in Dag(tasks, deps).nodes <==> IsTaskId(tasks, n) || IsEndpoint(deps, n)
    ensures forall e :: e in Dag(tasks, deps).edges <==> LastEdge(deps, e.src, e.dst) == Some(e)
  {
    if deps == [] {
      TaskNodesFaithful(tasks);
    } else {
      var init, d := deps[..|deps| - 1], deps[|deps| - 1];
      DagFaithful(tasks, init);
      var g := Dag(tasks, init);
      AddNodeEffect(g, d.dependsOn);
      AddNodeEffect(AddNode(g, d.dependsOn), d.taskId);
      PutEdgeEffect(g.edges, ToEdge(d));
      assert deps == init + [d];
      assert forall n :: IsEndpoint(deps, n) <==> IsEndpoint(init, n) || n == d.taskId || n == d.dependsOn;
    }
  }

  // Kahn's algorithm ------------------------------------------------------

  /** One when edge `e` ends in `n` and starts outside `done`. */
  ghost function Open(e: Edge, n: Id, done: set<Id>): nat {
    if e.dst == n && e.src !in done then 1 else 0
  }

  /** The open edges into `n` among the first `i`, and among the others. */
  ghost function OpenBefore(edges: seq<Edge>, i: nat, n: Id, done: set<Id>): nat
    requires i <= |edges|
  {
    if i == 0 then 0 else OpenBefore(edges, i - 1, n, done) + Open(edges[i - 1], n, done)
  }

  ghost function OpenFrom(edges: seq<Edge>, i: nat, n: Id, done: set<Id>): nat
    requires i <= |edges|
    decreases |edges| - i
  {
    if i == |edges| then 0 else OpenFrom(edges, i + 1, n, done) + Open(edges[i], n, done)
  }

  lemma {:induction false} OpenSplit(edges: seq<Edge>, i: nat, n: Id, done: set<Id>)
    requires i <= |edges|
    ensures OpenBefore(edges, i, n, done) + OpenFrom(edges, i, n, done) == OpenFrom(edges, 0, n, done)
  {
    if 0 < i {
      OpenSplit(edges, i - 1, n, done);
    }
  }

  lemma {:induction false} OpenZero(edges: seq<Edge>, i: nat, n: Id, done: set<Id>)
    requires i <= |edges|
    ensures OpenFrom(edges, i, n, done) == 0 <==>
            forall k :: i <= k < |edges| && edges[k].dst == n ==> edges[k].src in done
    decreases |edges| - i
  {
    if i < |edges| {
      OpenZero(edges, i + 1, n, done);
    }
  }

  method InDegrees(g: DiGraph) returns (indegree: map<Id, nat>)
    requires g.EndsAreNodes()
    ensures forall n :: n in indegree <==> n in g.nodes
    ensures forall n :: n in g.nodes ==> indegree[n] == OpenFrom(g.edges, 0, n, {})
  {
    indegree := map n | n in g.nodes :: 0;
    for i := 0 to |g.edges|
      invariant forall n :: n in indegree <==> n in g.nodes
      invariant forall n :: n in g.nodes ==> indegree[n] == OpenBefore(g.edges, i, n, {})
    {
      var end := g.edges[i].dst;
      indegree := indegree[end := indegree[end] + 1];
    }
    forall n | n in g.nodes
      ensures indegree[n] == OpenFrom(g.edges, 0, n, {})
    {
      OpenSplit(g.edges, |g.edges|, n, {});
    }
  }

  ghost function Set(s: seq<Id>): set<Id> {
    set n | n in s
  }

  /** The counters while the edges out of a node are being closed: the first `i` edges count
      with the node processed, the others without. */
  ghost predicate CountInv(g: DiGraph, indegree: map<Id, nat>, i: nat, before: set<Id>, after: set<Id>)
    requires i <= |g.edges|
  {
    && (forall n :: n in indegree <==> n in g.nodes)
    && (forall n :: n in g.nodes ==>
          indegree[n] == OpenBefore(g.edges, i, n, after) + OpenFrom(g.edges, i, n, before))
  }

  /** `queue` lists the nodes without open edges, each once. */
  ghost predicate QueueInv(g: DiGraph, indegree: map<Id, nat>, queue: seq<Id>) {
    && (forall n :: n in indegree <==> n in g.nodes)
    && (forall n :: n in queue <==> n in g.nodes && indegree[n] == 0)
    && Distinct(queue)
  }

  ghost predicate Forward(g: DiGraph, order: seq<Id>) {
    forall i, j :: 0 <= i < |order| && 0 <= j < |order| && g.Linked(order[i], order[j]) ==> i < j
  }

  /** The first `head` nodes of the queue are processed, and the edges out of them closed. */
  ghost predicate KahnInv(g: DiGraph, indegree: map<Id, nat>, queue: seq<Id>, head: nat) {
    && head <= |queue|
    && (forall n :: n in g.nodes ==> n in indegree && indegree[n] == OpenFrom(g.edges, 0, n, Set(queue[..head])))
    && QueueInv(g, indegree, queue)
    && Forward(g, queue[..head])
  }

  /** A queued node has all its predecessors among the processed nodes. */
  lemma ReadyNode(g: DiGraph, indegree: map<Id, nat>, queue: seq<Id>, head: nat, k: nat)
    requires KahnInv(g, indegree, queue, head) && k < |queue|
    ensures forall u :: g.Linked(u, queue[k]) ==> u in queue[..head]
  {
    assert queue[k] in queue;
    OpenZero(g.edges, 0, queue[k], Set(queue[..head]));
  }

  /** Processing one more node of the queue keeps every edge forward. */
  lemma PopForward(g: DiGraph, indegree: map<Id, nat>, queue: seq<Id>, head: nat)
    requires KahnInv(g, indegree, queue, head) && head < |queue|
    ensures Forward(g, queue[..head + 1])
    ensures Set(queue[..head + 1]) == Set(queue[..head]) + {queue[head]}
    ensures queue[head] !in queue[..head]
  {
    var next := queue[..head + 1];
    assert next == queue[..head] + [queue[head]];
    forall i, j | 0 <= i < |next| && 0 <= j < |next| && g.Linked(next[i], next[j])
      ensures i < j
    {
      ReadyNode(g, indegree, queue, head, j);
    }
  }

  /** One edge of the release loop: an edge out of `node` lowers the counter of its end. */
  lemma CountStep(g: DiGraph, indegree: map<Id, nat>, i: nat, node: Id, before: set<Id>, after: set<Id>)
    requires g.EndsAreNodes() && i < |g.edges|
    requires CountInv(g, indegree, i, before, after)
    requires node !in before && after == before + {node}
    ensures var e := g.edges[i];
            if e.src == node then
              && e.dst in indegree && 0 < indegree[e.dst]
              && CountInv(g, indegree[e.dst := indegree[e.dst] - 1], i + 1, before, after)
            else CountInv(g, indegree, i + 1, before, after)
  {
    var e := g.edges[i];
    assert e in g.edges;
    forall n | n in g.nodes
      ensures OpenBefore(g.edges, i + 1, n, after) + OpenFrom(g.edges, i + 1, n, before)
              == indegree[n] - if e.src == node && e.dst == n then 1 else 0
    {
      assert OpenFrom(g.edges, i, n, before) == OpenFrom(g.edges, i + 1, n, before) + Open(e, n, before);
    }
  }

  /** A node whose last open edge closes joins the queue. */
  lemma QueueStep(g: DiGraph, indegree: map<Id, nat>, queue: seq<Id>, n: Id)
    requires QueueInv(g, indegree, queue)
    requires n in g.nodes && 0 < indegree[n]
    ensures var lower := indegree[n := indegree[n] - 1];
            QueueInv(g, lower, if lower[n] == 0 then queue + [n] else queue)
  {
  }

  /** Closes edge `i` if it leaves `node`, and queues its end if that was the last open edge. */
  method CloseEdge(g: DiGraph, indegree0: map<Id, nat>, queue0: seq<Id>, i: nat, node: Id, ghost before: set<Id>)
    returns (indegree: map<Id, nat>, queue: seq<Id>)
    requires g.EndsAreNodes() && i < |g.edges| && node !in before
    requires CountInv(g, indegree0, i, before, before + {node}) && QueueInv(g, indegree0, queue0)
    ensures CountInv(g, indegree, i + 1, before, before + {node}) && QueueInv(g, indegree, queue)
    ensures queue0 <= queue
  {
    var e := g.edges[i];
    indegree, queue := indegree0, queue0;
    CountStep(g, indegree, i, node, before, before + {node});
    if e.src == node {
      QueueStep(g, indegree, queue, e.dst);
      indegree := indegree[e.dst := indegree[e.dst] - 1];
      if indegree[e.dst] == 0 {
        queue := queue + [e.dst];
      }
    }
  }

  /** Closes the edges out of `node`, and queues the nodes that have no open edge left. */
  method Release(g: DiGraph, indegree0: map<Id, nat>, queue0: seq<Id>, node: Id, ghost before: set<Id>)
    returns (indegree: map<Id, nat>, queue: seq<Id>)
    requires g.EndsAreNodes() && node !in before
    requires CountInv(g, indegree0, 0, before, before + {node}) && QueueInv(g, indegree0, queue0)
    ensures CountInv(g, indegree, |g.edges|, before, before + {node}) && QueueInv(g, indegree, queue)
    ensures queue0 <= queue
  {
    indegree, queue := indegree0, queue0;
    for i := 0 to |g.edges|
      invariant CountInv(g, indegree, i, before, before + {node})
      invariant QueueInv(g, indegree, queue)
      invariant queue0 <= queue
    {
      indegree, queue := CloseEdge(g, indegree, queue, i, node, before);
    }
  }

  lemma ReleaseEnd(g: DiGraph, indegree: map<Id, nat>, before: set<Id>, after: set<Id>)
    requires CountInv(g, indegree, |g.edges|, before, after)
    ensures forall n :: n in g.nodes ==> indegree[n] == OpenFrom(g.edges, 0, n, after)
  {
    forall n | n in g.nodes
      ensures indegree[n] == OpenFrom(g.edges, 0, n, after)
    {
      OpenSplit(g.edges, |g.edges|, n, after);
    }
  }

  /** The nodes no edge enters, in node order. */
  method Roots(g: DiGraph, indegree: map<Id, nat>) returns (queue: seq<Id>)
    requires forall n :: n in indegree <==> n in g.nodes
    requires Distinct(g.nodes)
    ensures QueueInv(g, indegree, queue)
  {
    queue := [];
    for i := 0 to |g.nodes|
      invariant forall n :: n in queue <==> n in g.nodes[..i] && indegree[n] == 0
      invariant Distinct(queue)
    {
      assert g.nodes[..i + 1] == g.nodes[..i] + [g.nodes[i]];
      if indegree[g.nodes[i]] == 0 {
        queue := queue + [g.nodes[i]];
      }
    }
    assert g.nodes[..|g.nodes|] == g.nodes;
  }

  /** One turn of Kahn's loop. */
  method ProcessHead(g: DiGraph, indegree0: map<Id, nat>, queue0: seq<Id>, head: nat)
    returns (indegree: map<Id, nat>, queue: seq<Id>)
    requires g.EndsAreNodes()
    requires KahnInv(g, indegree0, queue0, head) && head < |queue0|
    ensures KahnInv(g, indegree, queue, head + 1)
    ensures queue0 <= queue
  {
    ghost var before, after := Set(queue0[..head]), Set(queue0[..head + 1]);
    PopForward(g, indegree0, queue0, head);
    assert CountInv(g, indegree0, 0, before, after);
    indegree, queue := Release(g, indegree0, queue0, queue0[head], before);
    ReleaseEnd(g, indegree, before, after);
    assert queue[..head + 1] == queue0[..head + 1];
  }

  /** A duplicate-free list of nodes that has the predecessors of each node before it. */
  ghost predicate IsPartialOrder(g: DiGraph, order: seq<Id>) {
    && (forall n :: n in order ==> n in g.nodes)
    && Distinct(order)
    && (forall k, u :: 0 <= k < |order| && g.Linked(u, order[k]) ==> u in order[..k])
  }

  /** A walk leads into `n` from a node that it comes by twice: `n` is on a cycle or behind one. */
  ghost predicate BehindCycle(g: DiGraph, n: Id) {
    exists w :: g.IsWalk(w) && w[|w| - 1] == n && w[0] in w[1..]
  }

  /** Kahn's loop gets to every node that is not behind a cycle. */
  method KahnOrder(g: DiGraph) returns (order: seq<Id>, complete: bool)
    requires g.EndsAreNodes() && Distinct(g.nodes)
    ensures IsPartialOrder(g, order)
    ensures forall n :: n in order <==> n in g.nodes && !BehindCycle(g, n)
    ensures complete ==> g.IsTopologicalOrder(order)
    ensures !complete ==> g.HasCycle()
  {
    var indegree := InDegrees(g);
    var queue := Roots(g, indegree);
    var head := 0;
    assert Set(queue[..0]) == {};
    while head < |queue|
      invariant KahnInv(g, indegree, queue, head)
      invariant IsPartialOrder(g, queue[..head])
      decreases Set(g.nodes) - Set(queue[..head])
    {
      PopForward(g, indegree, queue, head);
      PopPartial(g, indegree, queue, head);
      assert queue[head] in queue;
      assert queue[head] in Set(g.nodes) - Set(queue[..head]);
      ghost var next := queue[..head + 1];
      indegree, queue := ProcessHead(g, indegree, queue, head);
      head := head + 1;
      assert queue[..head] == next;
    }
    assert queue[..head] == queue;
    StuckBehindCycle(g, indegree, queue);
    order := queue;
    complete := forall n :: n in g.nodes ==> indegree[n] == 0;
    if !complete {
      StuckHasCycle(g, indegree, queue);
    }
  }

  lemma PopPartial(g: DiGraph, indegree: map<Id, nat>, queue: seq<Id>, head: nat)
    requires KahnInv(g, indegree, queue, head) && head < |queue| && IsPartialOrder(g, queue[..head])
    ensures IsPartialOrder(g, queue[..head + 1])
  {
    var next := queue[..head + 1];
    assert next == queue[..head] + [queue[head]] && queue[head] in queue;
    forall k, u | 0 <= k < |next| && g.Linked(u, next[k])
      ensures u in next[..k]
    {
      if k == head {
        ReadyNode(g, indegree, queue, head, head);
        assert next[..k] == queue[..head];
      } else {
        assert next[..k] == queue[..head][..k];
        assert queue[..head][k] == next[k];
      }
    }
  }

  method TopologicalSort(g: DiGraph) returns (r: Option<seq<Id>>)
    requires g.EndsAreNodes() && Distinct(g.nodes)
    ensures r.Some? ==> g.IsTopologicalOrder(r.value)
    ensures r.None? ==> g.HasCycle()
  {
    var order, complete := KahnOrder(g);
    r := if complete then Some(order) else None;
  }

  // Cycles ----------------------------------------------------------------

  ghost predicate HasPredecessorIn(g: DiGraph, rest: set<Id>, n: Id) {
    exists u :: u in rest && g.Linked(u, n)
  }

  /** Where every node of a finite set has a predecessor in the set, walking backwards must
      come round to a node that was seen before. */
  lemma {:induction false} Backtrack(g: DiGraph, rest: set<Id>, w: seq<Id>) returns (longer: seq<Id>)
    requires rest <= Set(g.nodes)
    requires forall n {:trigger HasPredecessorIn(g, rest, n)} :: n in rest ==> HasPredecessorIn(g, rest, n)
    requires g.IsWalk(w) && Set(w) <= rest
    ensures g.IsWalk(longer) && longer[|longer| - 1] == w[|w| - 1] && longer[0] in longer[1..]
    decreases rest - Set(w)
  {
    assert w[0] in Set(w);
    assert HasPredecessorIn(g, rest, w[0]);
    var u :| u in rest && g.Linked(u, w[0]);
    assert u in Set(g.nodes);
    ExtendWalk(g, u, w);
    if u in w {
      longer := [u] + w;
    } else {
      assert Set([u] + w) == Set(w) + {u};
      longer := Backtrack(g, rest, [u] + w);
    }
  }

  lemma ExtendWalk(g: DiGraph, u: Id, w: seq<Id>)
    requires g.IsWalk(w) && u in g.nodes && g.Linked(u, w[0])
    ensures g.IsWalk([u] + w)
  {
    var longer := [u] + w;
    forall i | 0 <= i < |longer| - 1 ensures g.Linked(longer[i], longer[i + 1]) {
      if 0 < i {
        assert longer[i] == w[i - 1] && longer[i + 1] == w[i];
      }
    }
  }

  lemma CloseCycle(g: DiGraph, w: seq<Id>)
    requires g.IsWalk(w) && w[0] in w[1..]
    ensures g.HasCycle()
  {
    var k :| 0 <= k < |w| - 1 && w[1..][k] == w[0];
    var cycle := w[..k + 2];
    assert cycle[k + 1] == w[k + 1];
    assert g.IsWalk(cycle);
  }

  /** Every node the loop does not get to has a predecessor it does not get to. */
  lemma StuckHavePredecessors(g: DiGraph, indegree: map<Id, nat>, order: seq<Id>, n: Id)
    requires g.EndsAreNodes() && KahnInv(g, indegree, order, |order|)
    requires n in Set(g.nodes) - Set(order)
    ensures HasPredecessorIn(g, Set(g.nodes) - Set(order), n)
  {
    assert order[..|order|] == order;
    OpenZero(g.edges, 0, n, Set(order));
    var e :| e in g.edges && e.dst == n && e.src !in Set(order);
    assert g.Linked(e.src, n) && e.src in Set(g.nodes) - Set(order);
  }

  lemma StuckBehind(g: DiGraph, indegree: map<Id, nat>, order: seq<Id>, n: Id)
    requires g.EndsAreNodes() && KahnInv(g, indegree, order, |order|)
    requires n in g.nodes && n !in order
    ensures BehindCycle(g, n) && g.HasCycle()
  {
    var rest := Set(g.nodes) - Set(order);
    forall m {:trigger HasPredecessorIn(g, rest, m)} | m in rest
      ensures HasPredecessorIn(g, rest, m)
    {
      StuckHavePredecessors(g, indegree, order, m);
    }
    assert g.IsWalk([n]);
    var w := Backtrack(g, rest, [n]);
    CloseCycle(g, w);
  }

  lemma WalkPrefix(g: DiGraph, w: seq<Id>, n: nat)
    requires g.IsWalk(w) && 1 <= n <= |w|
    ensures g.IsWalk(w[..n])
  {
    forall i | 0 <= i < n - 1 ensures g.Linked(w[..n][i], w[..n][i + 1]) {
      assert g.Linked(w[i], w[i + 1]);
    }
  }

  /** The walks into an ordered node come through earlier nodes of the order. */
  lemma {:induction false} WalkBefore(g: DiGraph, order: seq<Id>, w: seq<Id>, k: nat)
    requires IsPartialOrder(g, order) && g.IsWalk(w) && k < |order| && w[|w| - 1] == order[k]
    ensures forall i :: 0 <= i < |w| - 1 ==> w[i] in order[..k]
    decreases |w|
  {
    if 2 <= |w| {
      var init := w[..|w| - 1];
      assert g.Linked(w[|w| - 2], w[|w| - 2 + 1]);
      var j :| 0 <= j < k && order[..k][j] == w[|w| - 2];
      WalkPrefix(g, w, |w| - 1);
      WalkBefore(g, order, init, j);
      forall i | 0 <= i < |w| - 1 ensures w[i] in order[..k] {
        if i < |init| - 1 {
          assert init[i] in order[..j];
          assert forall x :: x in order[..j] ==> x in order[..k];
        }
      }
    }
  }

  lemma OrderedNotBehind(g: DiGraph, order: seq<Id>, n: Id)
    requires IsPartialOrder(g, order) && n in order
    ensures !BehindCycle(g, n)
  {
    if w :| g.IsWalk(w) && w[|w| - 1] == n && w[0] in w[1..] {
      var k :| 0 <= k < |order| && order[k] == n;
      WalkBefore(g, order, w, k);
      var m :| 1 <= m < |w| && w[m] == w[0];
      WalkPrefix(g, w, m + 1);
      if m < |w| - 1 {
        assert w[m] in order[..k];
      }
      var l :| 0 <= l < |order| && order[l] == w[m];
      NoReturn(g, order, w[..m + 1], l);
    }
  }

  lemma NoReturn(g: DiGraph, order: seq<Id>, w: seq<Id>, k: nat)
    requires IsPartialOrder(g, order) && g.IsWalk(w) && 2 <= |w| && k < |order| && w[|w| - 1] == order[k]
    ensures w[0] != order[k]
  {
    WalkBefore(g, order, w, k);
    assert w[0] in order[..k];
  }

  lemma StuckBehindCycle(g: DiGraph, indegree: map<Id, nat>, order: seq<Id>)
    requires g.EndsAreNodes() && KahnInv(g, indegree, order, |order|) && IsPartialOrder(g, order)
    ensures forall n :: n in order <==> n in g.nodes && !BehindCycle(g, n)
  {
    forall n | n in g.nodes ensures n in order <==> !BehindCycle(g, n) {
      if n in order {
        OrderedNotBehind(g, order, n);
      } else {
        StuckBehind(g, indegree, order, n);
      }
    }
  }

  lemma StuckHasCycle(g: DiGraph, indegree: map<Id, nat>, order: seq<Id>)
    requires g.EndsAreNodes() && KahnInv(g, indegree, order, |order|)
    requires exists n :: n in g.nodes && indegree[n] != 0
    ensures g.HasCycle()
  {
    var m :| m in g.nodes && indegree[m] != 0;
    StuckBehind(g, indegree, order, m);
  }

  lemma {:induction false} WalkGoesForward(g: DiGraph, order: seq<Id>, w: seq<Id>, i: nat, j: nat)
    requires g.IsTopologicalOrder(order) && g.IsWalk(w) && 2 <= |w|
    requires i < |order| && j < |order| && order[i] == w[0] && order[j] == w[|w| - 1]
    ensures i < j
    decreases |w|
  {
    assert w[1] in order;
    var k :| 0 <= k < |order| && order[k] == w[1];
    assert g.Linked(order[i], order[k]);
    if 2 < |w| {
      assert forall n :: 0 <= n < |w| - 1 ==> w[1..][n] == w[n + 1];
      WalkGoesForward(g, order, w[1..], k, j);
    }
  }

  /** A graph has a topological order only if it has no cycle. With the postconditions of
      `TopologicalSort`, the sort succeeds exactly on the acyclic graphs. */
  lemma OrderedIsAcyclic(g: DiGraph, order: seq<Id>)
    requires g.IsTopologicalOrder(order)
    ensures !g.HasCycle()
  {
    if w :| g.IsWalk(w) && 2 <= |w| && w[0] == w[|w| - 1] {
      assert w[0] in order;
      var i :| 0 <= i < |order| && order[i] == w[0];
      WalkGoesForward(g, order, w, i, i);
    }
  }
}
