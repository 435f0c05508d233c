/** The longest dependency chain in working days (src/planner/domain/solver/critical_path.py). */
module CriticalPath {
  import opened Wrappers
  import opened Calendar
  import opened Models
  import opened Capacity
  import opened Graph
  import opened Solver

  const BUFFER_WORKING_DAYS := 2

  datatype PathError = Cyclic | UnknownTask(id: Id)

  // Durations -----------------------------------------------------------------

  function Capacities(allowed: seq<Id>, capacity: map<Id, int>): seq<int> {
    if allowed == [] then []
    else
      var rest := Capacities(allowed[1..], capacity);
      if allowed[0] in capacity then [capacity[allowed[0]]] + rest else rest
  }

  function MinOf(s: seq<int>): int
    requires s != []
  {
    if |s| == 1 then s[0]
    else
      var m := MinOf(s[1..]);
      if s[0] < m then s[0] else m
  }

  /** The hours a day counts for: the least capacity among the allowed people on the team,
      eight where there are none, and at least one. */
  function DayNorm(people: seq<Person>, task: Task): (norm: int)
    ensures 1 <= norm
  {
    var caps := Capacities(task.allowed, CapacityMap(people));
    var least := if caps != [] then MinOf(caps) else 8;
    if least < 1 then 1 else least
  }

  /** A task's hours in days of that norm, rounded up, and at least one. */
  function DurationDays(people: seq<Person>, task: Task): (days: nat)
    ensures 1 <= days
  {
    var days := (task.durationHours + DayNorm(people, task) - 1) / DayNorm(people, task);
    if days < 1 then 1 else days
  }

  lemma {:induction false} MinOfIsLeast(s: seq<int>)
    requires s != []
    ensures MinOf(s) in s && forall x :: x in s ==> MinOf(s) <= x
  {
    if 1 < |s| {
      MinOfIsLeast(s[1..]);
      assert s == [s[0]] + s[1..];
    }
  }

  lemma {:induction false} CapacitiesOf(allowed: seq<Id>, capacity: map<Id, int>)
    ensures forall c :: c in Capacities(allowed, capacity) <==>
              exists p :: p in allowed && p in capacity && capacity[p] == c
  {
    if allowed != [] {
      CapacitiesOf(allowed[1..], capacity);
      assert allowed == [allowed[0]] + allowed[1..];
    }
  }

  predicate MayWork(people: seq<Person>, task: Task, p: Id) {
    p in task.allowed && p in CapacityMap(people)
  }

  /** The norm is the weakest allowed person's, though never less than an hour; eight without
      anyone allowed on the team. */
  lemma DayNormIsLeast(people: seq<Person>, task: Task)
    ensures forall p :: MayWork(people, task, p) && 1 <= CapacityMap(people)[p] ==>
              DayNorm(people, task) <= CapacityMap(people)[p]
    ensures (forall p :: !MayWork(people, task, p)) ==> DayNorm(people, task) == 8
    ensures (exists p :: MayWork(people, task, p)) ==>
              exists p :: MayWork(people, task, p) &&
                          (DayNorm(people, task) == CapacityMap(people)[p] ||
                           (DayNorm(people, task) == 1 && CapacityMap(people)[p] < 1))
  {
    var caps := Capacities(task.allowed, CapacityMap(people));
    CapacitiesOf(task.allowed, CapacityMap(people));
    assert forall p :: MayWork(people, task, p) ==> CapacityMap(people)[p] in caps;
    if caps != [] {
      MinOfIsLeast(caps);
      var p :| p in task.allowed && p in CapacityMap(people) && CapacityMap(people)[p] == MinOf(caps);
      assert MayWork(people, task, p);
    }
  }

  /** The days hold the hours, and one day fewer would not. */
  lemma DurationIsCeiling(people: seq<Person>, task: Task)
    ensures var days, norm := DurationDays(people, task), DayNorm(people, task);
            task.durationHours <= norm * days && (days == 1 || norm * (days - 1) < task.durationHours)
  {
    var norm := DayNorm(people, task);
    hide DayNorm;
    var q := (task.durationHours + norm - 1) / norm;
    assert norm * q <= task.durationHours + norm - 1 < norm * q + norm;
    if q < 1 {
      assert norm * q <= 0 by {
        assert 0 <= norm * (-q);
      }
    }
  }

  function WorkDays(req: PlanRequest, id: Id): nat {
    match TaskById(req.tasks, id)
    case None => 0
    case Some(task) => DurationDays(req.people, task)
  }

  // Chains --------------------------------------------------------------------

  /** The working days of all the tasks on a walk. */
  ghost function Weight(req: PlanRequest, w: seq<Id>): nat {
    if w == [] then 0 else Weight(req, w[..|w| - 1]) + WorkDays(req, w[|w| - 1])
  }

  ghost predicate IsWalkTo(g: DiGraph, w: seq<Id>, n: Id) {
    g.IsWalk(w) && w[|w| - 1] == n
  }

  /** `m` is the weight of the heaviest walk that ends in `n`. */
  ghost predicate IsLongestTo(req: PlanRequest, g: DiGraph, n: Id, m: nat) {
    && (forall w :: IsWalkTo(g, w, n) ==> Weight(req, w) <= m)
    && (exists w :: IsWalkTo(g, w, n) && Weight(req, w) == m)
  }

  /** `m` is the weight of the heaviest walk of all; an empty graph has none. */
  ghost predicate IsLongest(req: PlanRequest, g: DiGraph, m: nat) {
    && (forall w :: g.IsWalk(w) ==> Weight(req, w) <= m)
    && (g.nodes == [] ==> m == 0)
    && (g.nodes != [] ==> exists w :: g.IsWalk(w) && Weight(req, w) == m)
  }

  lemma WalkSnoc(g: DiGraph, w: seq<Id>, n: Id)
    requires g.IsWalk(w) && n in g.nodes && g.Linked(w[|w| - 1], n)
    ensures IsWalkTo(g, w + [n], n)
  {
    var longer := w + [n];
    forall i | 0 <= i < |longer| - 1 ensures g.Linked(longer[i], longer[i + 1]) {
      assert longer[i] == w[i];
      if i < |w| - 1 {
        assert longer[i + 1] == w[i + 1];
      }
    }
  }

  lemma WalkInit(g: DiGraph, w: seq<Id>)
    requires g.IsWalk(w) && 2 <= |w|
    ensures IsWalkTo(g, w[..|w| - 1], w[|w| - 2]) && g.Linked(w[|w| - 2], w[|w| - 1])
  {
    var init := w[..|w| - 1];
    assert forall i :: 0 <= i < |init| ==> init[i] == w[i];
    assert g.Linked(w[|w| - 2], w[|w| - 2 + 1]);
  }

  // The dynamic program -----------------------------------------------------------

  /** The greatest finish among the predecessors of `id`; zero without any. */
  function Base(edges: seq<Edge>, id: Id, finish: map<Id, nat>): nat {
    if edges == [] then 0
    else
      var base := Base(edges[..|edges| - 1], id, finish);
      var e := edges[|edges| - 1];
      if e.dst == id && e.src in finish && base < finish[e.src] then finish[e.src] else base
  }

  ghost function Finish(req: PlanRequest, edges: seq<Edge>, order: seq<Id>): map<Id, nat> {
    if order == [] then map[]
    else
      var finish := Finish(req, edges, order[..|order| - 1]);
      var id := order[|order| - 1];
      finish[id := Base(edges, id, finish) + WorkDays(req, id)]
  }

  lemma {:induction false} BaseIsMax(edges: seq<Edge>, id: Id, finish: map<Id, nat>)
    ensures var base := Base(edges, id, finish);
            && (forall e :: e in edges && e.dst == id && e.src in finish ==> finish[e.src] <= base)
            && (base == 0 || exists e :: e in edges && e.dst == id && e.src in finish && finish[e.src] == base)
  {
    if edges != [] {
      BaseIsMax(edges[..|edges| - 1], id, finish);
      assert edges == edges[..|edges| - 1] + [edges[|edges| - 1]];
    }
  }

  ghost predicate AllLongest(req: PlanRequest, g: DiGraph, finish: map<Id, nat>) {
    forall n :: n in finish ==> IsLongestTo(req, g, n, finish[n])
  }

  /** A node whose predecessors all carry their longest finish gets its own. */
  lemma BaseExtends(req: PlanRequest, g: DiGraph, n: Id, finish: map<Id, nat>)
    requires g.EndsAreNodes() && n in g.nodes
    requires forall u :: g.Linked(u, n) ==> u in finish
    requires AllLongest(req, g, finish)
    ensures IsLongestTo(req, g, n, Base(g.edges, n, finish) + WorkDays(req, n))
  {
    var base := Base(g.edges, n, finish);
    BaseIsMax(g.edges, n, finish);
    forall w | IsWalkTo(g, w, n)
      ensures Weight(req, w) <= base + WorkDays(req, n)
    {
      if 2 <= |w| {
        WalkInit(g, w);
      } else {
        assert w[..0] == [];
      }
    }
    if base == 0 {
      assert Weight(req, [n][..0]) == 0;
      assert IsWalkTo(g, [n], n) && Weight(req, [n]) == WorkDays(req, n);
    } else {
      var e :| e in g.edges && e.dst == n && e.src in finish && finish[e.src] == base;
      var w :| IsWalkTo(g, w, e.src) && Weight(req, w) == base;
      assert g.Linked(e.src, n);
      WalkSnoc(g, w, n);
      assert (w + [n])[..|w|] == w;
      assert Weight(req, w + [n]) == base + WorkDays(req, n);
    }
  }

  lemma {:induction false} FinishKeys(req: PlanRequest, edges: seq<Edge>, order: seq<Id>)
    ensures forall n :: n in Finish(req, edges, order) <==> n in order
  {
    if order != [] {
      assert order == order[..|order| - 1] + [order[|order| - 1]];
      FinishKeys(req, edges, order[..|order| - 1]);
    }
  }

  lemma PredecessorsBefore(g: DiGraph, order: seq<Id>, k: nat, u: Id)
    requires g.EndsAreNodes() && g.IsTopologicalOrder(order) && k < |order| && g.Linked(u, order[k])
    ensures u in order[..k]
  {
    assert u in order;
    var i :| 0 <= i < |order| && order[i] == u;
    assert g.Linked(order[i], order[k]);
    assert order[..k][i] == u;
  }

  /** Along any topological order the program finds the longest chain into every node. */
  lemma {:induction false} FinishIsLongest(req: PlanRequest, g: DiGraph, order: seq<Id>, k: nat)
    requires g.EndsAreNodes() && g.IsTopologicalOrder(order) && k <= |order|
    ensures AllLongest(req, g, Finish(req, g.edges, order[..k]))
  {
    hide IsLongestTo, Base, WorkDays, DiGraph.Linked;
    if 0 < k {
      var n := order[k - 1];
      var before := Finish(req, g.edges, order[..k - 1]);
      FinishIsLongest(req, g, order, k - 1);
      FinishKeys(req, g.edges, order[..k - 1]);
      assert order[..k][..k - 1] == order[..k - 1];
      forall u | g.Linked(u, n) ensures u in before {
        PredecessorsBefore(g, order, k - 1, u);
      }
      BaseExtends(req, g, n, before);
    }
  }

  method ComputeBase(edges: seq<Edge>, id: Id, finish: map<Id, nat>) returns (base: nat)
    ensures base == Base(edges, id, finish)
  {
    base := 0;
    for i := 0 to |edges|
      invariant base == Base(edges[..i], id, finish)
    {
      assert edges[..i + 1][..i] == edges[..i];
      var e := edges[i];
      if e.dst == id && e.src in finish && base < finish[e.src] {
        base := finish[e.src];
      }
    }
    assert edges[..|edges|] == edges;
  }

  /** `m` is the greatest finish so far, zero before the first. */
  ghost predicate IsMaxFinish(finish: map<Id, nat>, m: nat) {
    && (forall n :: n in finish ==> finish[n] <= m)
    && (m == 0 || exists n :: n in finish && finish[n] == m)
  }

  lemma MaxFinishStep(finish: map<Id, nat>, m: nat, id: Id, end: nat)
    requires IsMaxFinish(finish, m) && id !in finish
    ensures IsMaxFinish(finish[id := end], if m < end then end else m)
  {
    var after := finish[id := end];
    assert id in after && after[id] == end;
    if end <= m && m != 0 {
      var n :| n in finish && finish[n] == m;
      assert n in after && after[n] == m;
    }
  }

  ghost predicate AllKnown(tasks: seq<Task>, ids: seq<Id>) {
    forall n :: n in ids ==> IsTaskId(tasks, n)
  }

  lemma FinishStep(req: PlanRequest, edges: seq<Edge>, order: seq<Id>, i: nat)
    requires i < |order| && Distinct(order)
    ensures var finish := Finish(req, edges, order[..i]);
            && order[i] !in finish
            && Finish(req, edges, order[..i + 1]) ==
               finish[order[i] := Base(edges, order[i], finish) + WorkDays(req, order[i])]
  {
    assert order[..i + 1][..i] == order[..i];
    FinishKeys(req, edges, order[..i]);
  }

  /** The dynamic program along an order: fails on a node that is no task. */
  method FillFinish(req: PlanRequest, edges: seq<Edge>, order: seq<Id>)
    returns (r: Result<nat, PathError>, ghost finish: map<Id, nat>)
    requires Distinct(order)
    ensures r.Failure? ==> r.error.UnknownTask? && r.error.id in order && !IsTaskId(req.tasks, r.error.id)
    ensures r.Success? ==> AllKnown(req.tasks, order) && finish == Finish(req, edges, order) &&
                           IsMaxFinish(finish, r.value)
  {
    var efDays: map<Id, nat> := map[];
    var maxFinish: nat := 0;
    for i := 0 to |order|
      invariant efDays == Finish(req, edges, order[..i])
      invariant AllKnown(req.tasks, order[..i])
      invariant IsMaxFinish(efDays, maxFinish)
    {
      var id := order[i];
      TaskByIdIsTask(req.tasks, id);
      var task := TaskById(req.tasks, id);
      if task.None? {
        return Failure(UnknownTask(id)), efDays;
      }
      var base := ComputeBase(edges, id, efDays);
      var end := base + DurationDays(req.people, task.value);
      FinishStep(req, edges, order, i);
      MaxFinishStep(efDays, maxFinish, id, end);
      efDays := efDays[id := end];
      maxFinish := if maxFinish < end then end else maxFinish;
    }
    assert order[..|order|] == order;
    r, finish := Success(maxFinish), efDays;
  }

  /** Whether the path can be computed: no node without a task among those the order gets to, and
      no cycle that keeps it from getting to all. */
  ghost predicate IsPathError(req: PlanRequest, g: DiGraph, error: PathError) {
    match error
    case UnknownTask(id) => id in g.nodes && !BehindCycle(g, id) && !IsTaskId(req.tasks, id)
    case Cyclic => g.HasCycle() && forall n :: n in g.nodes && !BehindCycle(g, n) ==> IsTaskId(req.tasks, n)
  }

  /** The nodes are taken as the order yields them, so an unknown task is met before a cycle that
      it is not behind. */
  method LongestChain(req: PlanRequest, g: DiGraph) returns (r: Result<nat, PathError>)
    requires g.EndsAreNodes() && Distinct(g.nodes)
    ensures r.Failure? ==> IsPathError(req, g, r.error)
    ensures r.Success? ==> IsLongest(req, g, r.value) && AllKnown(req.tasks, g.nodes) && !g.HasCycle()
  {
    var order, complete := KahnOrder(g);
    ghost var finish;
    r, finish := FillFinish(req, g.edges, order);
    if r.Failure? {
      return;
    }
    if !complete {
      return Failure(Cyclic);
    }
    OrderedIsAcyclic(g, order);
    assert order[..|order|] == order;
    FinishIsLongest(req, g, order, |order|);
    FinishKeys(req, g.edges, order);
    LongestOfAll(req, g, finish, r.value);
  }

  lemma LongestOfAll(req: PlanRequest, g: DiGraph, finish: map<Id, nat>, m: nat)
    requires forall n :: n in finish <==> n in g.nodes
    requires AllLongest(req, g, finish) && IsMaxFinish(finish, m)
    ensures IsLongest(req, g, m)
  {
    forall w | g.IsWalk(w)
      ensures Weight(req, w) <= m
    {
      var n := w[|w| - 1];
      assert n in w && IsWalkTo(g, w, n);
      assert IsLongestTo(req, g, n, finish[n]);
    }
    if g.nodes != [] {
      var n := if m == 0 then g.nodes[0] else var n :| n in finish && finish[n] == m; n;
      assert n in finish && IsLongestTo(req, g, n, finish[n]);
    }
  }

  /** The day the longest chain of `m` working days ends. */
  function ChainEnd(calendar: WeekendCalendar, start: Date, m: nat): Date {
    if m == 0 then calendar.FirstFrom(start) else calendar.Nth(start, m)
  }

  method CriticalPathEnd(req: PlanRequest, start: Date, calendar: WeekendCalendar)
    returns (r: Result<Date, PathError>)
    ensures r.Failure? ==> IsPathError(req, Dag(req.tasks, req.dependencies), r.error)
    ensures r.Success? ==>
              && !Dag(req.tasks, req.dependencies).HasCycle()
              && (forall n :: n in Dag(req.tasks, req.dependencies).nodes ==> IsTaskId(req.tasks, n))
              && exists m: nat :: IsLongest(req, Dag(req.tasks, req.dependencies), m) &&
                             r.value == ChainEnd(calendar, start, m)
  {
    var g := BuildDag(req.tasks, req.dependencies);
    DagFaithful(req.tasks, req.dependencies);
    var longest := LongestChain(req, g);
    if longest.Failure? {
      return Failure(longest.error);
    }
    if longest.value == 0 {
      var first := calendar.FirstWorkingDay(start);
      return Success(first);
    }
    var end := calendar.NthWorkingDay(start, longest.value);
    r := Success(end.value);
    assert r.value == ChainEnd(calendar, start, longest.value);
  }

  method AddBuffer(calendar: WeekendCalendar, raw: Date, ghost start: Date, ghost days: nat) returns (end: Date)
    requires 1 <= days && raw == calendar.Nth(start, days)
    ensures end == calendar.Nth(start, days + 2)
  {
    hide WeekendCalendar.FirstFrom;
    end := raw;
    for i := 0 to BUFFER_WORKING_DAYS
      invariant end == calendar.Nth(start, days + i)
    {
      assert calendar.Nth(start, days + i + 1) == calendar.FirstFrom(end + 1);
      end := calendar.NextWorkingDay(end);
    }
  }

  /** The date shown without a deadline: the longest chain, at least one day, and the buffer. */
  method PresentedEarliestEnd(req: PlanRequest, start: Date, calendar: WeekendCalendar)
    returns (r: Result<Date, PathError>)
    ensures r.Failure? <==> Dag(req.tasks, req.dependencies).HasCycle() ||
                            exists n :: n in Dag(req.tasks, req.dependencies).nodes && !IsTaskId(req.tasks, n)
    ensures r.Failure? ==> IsPathError(req, Dag(req.tasks, req.dependencies), r.error)
    ensures r.Success? ==>
              exists m: nat :: IsLongest(req, Dag(req.tasks, req.dependencies), m) &&
                          r.value == calendar.Nth(start, (if m < 1 then 1 else m) + 2)
  {
    hide WeekendCalendar.FirstFrom, Dag, IsLongest;
    var raw := CriticalPathEnd(req, start, calendar);
    if raw.Failure? {
      return raw;
    }
    ghost var m: nat :| IsLongest(req, Dag(req.tasks, req.dependencies), m) &&
                        raw.value == ChainEnd(calendar, start, m);
    var end := AddBuffer(calendar, raw.value, start, if m < 1 then 1 else m);
    r := Success(end);
  }

  lemma LongestUnique(req: PlanRequest, g: DiGraph, m: nat, n: nat)
    requires IsLongest(req, g, m) && IsLongest(req, g, n)
    ensures m == n
  {
  }
}
