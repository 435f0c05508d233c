/** What holds of every plan the scheduler returns: it is complete and in dependency order,
    it respects the links, and it conserves the hours of every task. */
module Plans {
  import opened Wrappers
  import opened Calendar
  import opened Models
  import opened Capacity
  import opened Graph
  import opened Allocators
  import opened Solver
  import opened Shapes

  ghost predicate DistinctTasks(tasks: seq<Task>) {
    forall i, j :: 0 <= i < j < |tasks| ==> tasks[i].id != tasks[j].id
  }

  ghost predicate HasFixedId(tasks: seq<Task>, id: Id) {
    exists t :: t in tasks && IsFixed(t) && t.id == id
  }

  // Along the run -----------------------------------------------------------

  lemma {:induction false} PrePlacedKeys(tasks: seq<Task>, existing: seq<DayAllocation>)
    ensures forall id :: id in PrePlaced(tasks, existing).placed <==> HasFixedId(tasks, id)
    ensures forall id :: id in PrePlaced(tasks, existing).placed ==>
              PrePlaced(tasks, existing).placed[id].taskId == id
  {
    if tasks != [] {
      var init, t := tasks[..|tasks| - 1], tasks[|tasks| - 1];
      PrePlacedKeys(init, existing);
      assert tasks == init + [t];
      assert forall id :: HasFixedId(tasks, id) <==> HasFixedId(init, id) || (IsFixed(t) && t.id == id);
    }
  }

  /** After the run the placed tasks are the fixed ones and the tasks on the order. */
  lemma {:induction false} PlacedKeys(req: PlanRequest, team: Team, edges: seq<Edge>, order: seq<Id>)
    requires Schedulable(req)
    ensures var placed := RunOrder(req, team, edges, order).placed;
            && (forall id :: id in placed <==>
                  HasFixedId(req.tasks, id) || (IsTaskId(req.tasks, id) && id in order))
            && (forall id :: id in placed ==> placed[id].taskId == id)
  {
    if order == [] {
      PrePlacedKeys(req.tasks, req.existing);
    } else {
      var init, id := order[..|order| - 1], order[|order| - 1];
      PlacedKeys(req, team, edges, init);
      TaskByIdIsTask(req.tasks, id);
      assert order == init + [id];
    }
  }

  /** Once placed, a task does not move. */
  lemma {:induction false} Persistent(req: PlanRequest, team: Team, edges: seq<Edge>, order: seq<Id>, k: nat)
    requires Schedulable(req) && k <= |order|
    ensures var early, late := RunOrder(req, team, edges, order[..k]).placed, RunOrder(req, team, edges, order).placed;
            forall id :: id in early ==> id in late && late[id] == early[id]
    decreases |order|
  {
    if k == |order| {
      assert order[..k] == order;
    } else {
      assert order[..|order| - 1][..k] == order[..k];
      Persistent(req, team, edges, order[..|order| - 1], k);
    }
  }

  /** A task that is not fixed is placed at its turn, given what was placed before. */
  lemma PlacedAtTurn(req: PlanRequest, team: Team, edges: seq<Edge>, order: seq<Id>, k: nat)
    requires Schedulable(req) && k < |order| && Distinct(order)
    requires IsTaskId(req.tasks, order[k]) && !HasFixedId(req.tasks, order[k])
    ensures TaskById(req.tasks, order[k]).Some?
    ensures var task := TaskById(req.tasks, order[k]).value;
            var before := RunOrder(req, team, edges, order[..k]);
            var final := RunOrder(req, team, edges, order);
            && task in req.tasks
            && order[k] in final.placed
            && final.placed[order[k]] == ToAssignment(order[k], ChoiceFor(req, team, edges, before, task))
  {
    TaskByIdIsTask(req.tasks, order[k]);
    PlacedKeys(req, team, edges, order[..k]);
    assert order[..k + 1][..k] == order[..k];
    Persistent(req, team, edges, order, k + 1);
  }

  /** Every real predecessor is placed before its successor's turn comes. */
  lemma PredecessorsFirst(req: PlanRequest, team: Team, order: seq<Id>, k: nat, u: Id)
    requires Schedulable(req)
    requires Dag(req.tasks, req.dependencies).IsTopologicalOrder(order) && k < |order|
    requires Dag(req.tasks, req.dependencies).Linked(u, order[k]) && IsTaskId(req.tasks, u)
    ensures u in RunOrder(req, team, Dag(req.tasks, req.dependencies).edges, order[..k]).placed
  {
    var g := Dag(req.tasks, req.dependencies);
    DagFaithful(req.tasks, req.dependencies);
    assert u in order;
    var i :| 0 <= i < |order| && order[i] == u;
    assert g.Linked(order[i], order[k]);
    assert order[..k][i] == u;
    PlacedKeys(req, team, g.edges, order[..k]);
  }

  // Completeness ------------------------------------------------------------

  function TaskIds(assignments: seq<Assignment>): seq<Id> {
    seq(|assignments|, i requires 0 <= i < |assignments| => assignments[i].taskId)
  }

  lemma {:induction false} OrderedIds(order: seq<Id>, placed: map<Id, Assignment>)
    requires forall id :: id in placed ==> placed[id].taskId == id
    requires Distinct(order)
    ensures var ids := TaskIds(Ordered(order, placed));
            && (forall id :: id in ids <==> id in order && id in placed)
            && Distinct(ids)
    ensures forall a :: a in Ordered(order, placed) <==>
              a.taskId in order && a.taskId in placed && placed[a.taskId] == a
  {
    if order != [] {
      var init, id := order[..|order| - 1], order[|order| - 1];
      OrderedIds(init, placed);
      assert order == init + [id];
      assert id !in init;
      if id in placed {
        assert TaskIds(Ordered(order, placed)) == TaskIds(Ordered(init, placed)) + [id];
      }
    }
  }

  /** The assignments come in the order of their tasks. */
  lemma {:induction false} OrderedPositions(order: seq<Id>, placed: map<Id, Assignment>, i: nat, j: nat)
    returns (k: nat, l: nat)
    requires forall id :: id in placed ==> placed[id].taskId == id
    requires i < j < |Ordered(order, placed)|
    ensures k < l < |order|
    ensures order[k] == Ordered(order, placed)[i].taskId && order[l] == Ordered(order, placed)[j].taskId
  {
    var init := order[..|order| - 1];
    if j < |Ordered(init, placed)| {
      k, l := OrderedPositions(init, placed, i, j);
    } else {
      k := OrderedPosition(init, placed, i);
      l := |order| - 1;
    }
  }

  lemma {:induction false} OrderedPosition(order: seq<Id>, placed: map<Id, Assignment>, i: nat) returns (k: nat)
    requires forall id :: id in placed ==> placed[id].taskId == id
    requires i < |Ordered(order, placed)|
    ensures k < |order| && order[k] == Ordered(order, placed)[i].taskId
  {
    var init := order[..|order| - 1];
    if i < |Ordered(init, placed)| {
      k := OrderedPosition(init, placed, i);
    } else {
      k := |order| - 1;
    }
  }

  /** The assignments of a plan are what the run placed, task by task. */
  lemma PlanEntries(req: PlanRequest, calendar: WeekendCalendar, order: seq<Id>, plan: PlanResult)
    requires Schedulable(req) && IsPlanAlong(req, calendar, order, plan)
    ensures Distinct(order)
    ensures var team := MakeTeam(req.people, calendar, req.dayOverrides);
            var placed := RunOrder(req, team, Dag(req.tasks, req.dependencies).edges, order).placed;
            && (forall id :: id in placed <==> IsTaskId(req.tasks, id))
            && (forall id :: id in placed ==> placed[id].taskId == id && id in order)
            && (forall a :: a in plan.assignments <==> a.taskId in placed && placed[a.taskId] == a)
            && (forall id :: id in TaskIds(plan.assignments) <==> id in placed)
            && Distinct(TaskIds(plan.assignments))
  {
    var team := MakeTeam(req.people, calendar, req.dayOverrides);
    var g := Dag(req.tasks, req.dependencies);
    var placed := RunOrder(req, team, g.edges, order).placed;
    PlacedAreTasks(req, team, order);
    OrderedIds(order, placed);
  }

  lemma PlacedAreTasks(req: PlanRequest, team: Team, order: seq<Id>)
    requires Schedulable(req) && Dag(req.tasks, req.dependencies).IsTopologicalOrder(order)
    ensures var placed := RunOrder(req, team, Dag(req.tasks, req.dependencies).edges, order).placed;
            && (forall id :: id in placed <==> IsTaskId(req.tasks, id))
            && (forall id :: id in placed ==> placed[id].taskId == id && id in order)
  {
    DagFaithful(req.tasks, req.dependencies);
    PlacedKeys(req, team, Dag(req.tasks, req.dependencies).edges, order);
    FixedAreTasks(req.tasks);
  }

  lemma FixedAreTasks(tasks: seq<Task>)
    ensures forall id :: HasFixedId(tasks, id) ==> IsTaskId(tasks, id)
  {
  }

  /** A plan assigns exactly the requested tasks, each once. */
  lemma Complete(req: PlanRequest, calendar: WeekendCalendar, plan: PlanResult)
    requires Schedulable(req) && IsPlan(req, calendar, plan)
    ensures forall id :: id in TaskIds(plan.assignments) <==> IsTaskId(req.tasks, id)
    ensures Distinct(TaskIds(plan.assignments))
  {
    var order :| IsPlanAlong(req, calendar, order, plan);
    PlanEntries(req, calendar, order, plan);
  }

  /** A plan lists a predecessor before its successors. */
  lemma InDependencyOrder(req: PlanRequest, calendar: WeekendCalendar, plan: PlanResult, i: nat, j: nat)
    requires Schedulable(req) && IsPlan(req, calendar, plan)
    requires i < |plan.assignments| && j < |plan.assignments|
    requires LastEdge(req.dependencies, plan.assignments[i].taskId, plan.assignments[j].taskId).Some?
    ensures i < j
  {
    var order :| IsPlanAlong(req, calendar, order, plan);
    var team := MakeTeam(req.people, calendar, req.dayOverrides);
    var g := Dag(req.tasks, req.dependencies);
    var placed := RunOrder(req, team, g.edges, order).placed;
    PlacedKeys(req, team, g.edges, order);
    LinkedByLast(req.tasks, req.dependencies, plan.assignments[i].taskId, plan.assignments[j].taskId);
    if j < i {
      var k, l := OrderedPositions(order, placed, j, i);
    } else if i == j {
      var k := OrderedPosition(order, placed, i);
    }
  }

  lemma {:induction false} LastEdgeEnds(deps: seq<Dependency>, u: Id, v: Id)
    ensures var e := LastEdge(deps, u, v); e.Some? ==> e.value.src == u && e.value.dst == v
  {
    if deps != [] {
      LastEdgeEnds(deps[..|deps| - 1], u, v);
    }
  }

  lemma LinkedByLast(tasks: seq<Task>, deps: seq<Dependency>, u: Id, v: Id)
    ensures Dag(tasks, deps).Linked(u, v) <==> LastEdge(deps, u, v).Some?
  {
    DagFaithful(tasks, deps);
    LastEdgeEnds(deps, u, v);
    if LastEdge(deps, u, v).Some? {
      assert LastEdge(deps, u, v).value in Dag(tasks, deps).edges;
    }
  }

  // One assignment of a plan --------------------------------------------------

  /** How the assignment of an unfixed task came about: the state before its turn, which
      later turns only extend. */
  lemma {:induction false} AssignmentOrigin(req: PlanRequest, calendar: WeekendCalendar, order: seq<Id>, plan: PlanResult,
                                            b: Assignment)
    returns (task: Task, k: nat)
    requires Schedulable(req) && IsPlanAlong(req, calendar, order, plan)
    requires b in plan.assignments && !HasFixedId(req.tasks, b.taskId)
    ensures k < |order| && order[k] == b.taskId
    ensures task in req.tasks && task.id == b.taskId
    ensures TaskById(req.tasks, b.taskId) == Some(task)
    ensures req.people != [] && (task.isSplittable ==> 1 <= task.durationHours)
    ensures var team := MakeTeam(req.people, calendar, req.dayOverrides);
            var edges := Dag(req.tasks, req.dependencies).edges;
            var before := RunOrder(req, team, edges, order[..k]);
            && b == ToAssignment(b.taskId, ChoiceFor(req, team, edges, before, task))
            && (forall id :: id in before.placed ==> before.placed[id] in plan.assignments)
  {
    var team := MakeTeam(req.people, calendar, req.dayOverrides);
    var edges := Dag(req.tasks, req.dependencies).edges;
    PlanEntries(req, calendar, order, plan);
    k :| 0 <= k < |order| && order[k] == b.taskId;
    PlacedAtTurn(req, team, edges, order, k);
    TaskByIdIsTask(req.tasks, b.taskId);
    task := TaskById(req.tasks, b.taskId).value;
    Persistent(req, team, edges, order, k);
    PlacedKeys(req, team, edges, order[..k]);
  }

  lemma UniqueAssignment(req: PlanRequest, calendar: WeekendCalendar, plan: PlanResult, a: Assignment, b: Assignment)
    requires Schedulable(req) && IsPlan(req, calendar, plan)
    requires a in plan.assignments && b in plan.assignments && a.taskId == b.taskId
    ensures a == b
  {
    var order :| IsPlanAlong(req, calendar, order, plan);
    PlanEntries(req, calendar, order, plan);
  }

  // Precedence --------------------------------------------------------------

  lemma {:induction false} EarliestRespects(calendar: WeekendCalendar, edges: seq<Edge>, id: Id,
                                            placed: map<Id, Assignment>, horizonStart: Date)
    ensures var est := EarliestStart(calendar, edges, id, placed, horizonStart);
            && horizonStart <= est
            && forall e :: e in edges && e.dst == id && e.src in placed ==>
                 LinkDate(calendar, e, placed[e.src]) <= est
  {
    if edges != [] {
      EarliestRespects(calendar, edges[..|edges| - 1], id, placed, horizonStart);
      assert edges == edges[..|edges| - 1] + [edges[|edges| - 1]];
    }
  }

  /** A task is not held back without need: it may start with the horizon, or one of its links
      forces the day. */
  lemma {:induction false} EarliestIsForced(calendar: WeekendCalendar, edges: seq<Edge>, id: Id,
                                            placed: map<Id, Assignment>, horizonStart: Date)
    ensures var est := EarliestStart(calendar, edges, id, placed, horizonStart);
            est == horizonStart ||
            exists e :: e in edges && e.dst == id && e.src in placed && LinkDate(calendar, e, placed[e.src]) == est
  {
    if edges != [] {
      EarliestIsForced(calendar, edges[..|edges| - 1], id, placed, horizonStart);
      assert edges == edges[..|edges| - 1] + [edges[|edges| - 1]];
    }
  }

  /** The link date in working days: the lag counts the successor's first possible day. */
  lemma LinkDateMeaning(calendar: WeekendCalendar, e: Edge, pred: Assignment, start: Date)
    requires calendar.IsWorkingDay(start)
    ensures LinkDate(calendar, e, pred) <= start <==>
              var from := if e.link == FS then pred.endDate + 1 else pred.startDate;
              from <= start && (if 0 < e.lag then e.lag - 1 else 0) <= calendar.BusinessDays(from, start)
  {
    var from := if e.link == FS then pred.endDate + 1 else pred.startDate;
    var base := if e.link == FS then calendar.FirstFrom(from) else from;
    if from <= start {
      var n := if 0 < e.lag then e.lag else 1;
      calendar.AtLeastNth(from, n, start);
      calendar.NthMonotoneInStart(from, base, n);
      calendar.NthCount(base, n);
      calendar.BusinessDaysAdditive(from, base, calendar.Nth(base, n));
      if base != from {
        calendar.NoWorkingDays(from, base);
      }
      calendar.NthInverse(from, n, calendar.Nth(base, n));
    }
  }

  /** When the turn of a task comes, its predecessor has the assignment it has in the plan. */
  lemma PredecessorPlaced(req: PlanRequest, calendar: WeekendCalendar, order: seq<Id>, plan: PlanResult,
                          e: Edge, a: Assignment, k: nat)
    requires Schedulable(req) && IsPlanAlong(req, calendar, order, plan)
    requires LastEdge(req.dependencies, e.src, e.dst) == Some(e)
    requires a in plan.assignments && a.taskId == e.src
    requires k < |order| && order[k] == e.dst
    ensures var team := MakeTeam(req.people, calendar, req.dayOverrides);
            var before := RunOrder(req, team, Dag(req.tasks, req.dependencies).edges, order[..k]);
            e.src in before.placed && before.placed[e.src] == a
  {
    var team := MakeTeam(req.people, calendar, req.dayOverrides);
    var g := Dag(req.tasks, req.dependencies);
    PlanEntries(req, calendar, order, plan);
    LinkedByLast(req.tasks, req.dependencies, e.src, e.dst);
    PredecessorsFirst(req, team, order, k, e.src);
    Persistent(req, team, g.edges, order, k);
  }

  /** Every link into a task that is not fixed holds in the plan, whether or not the task was
      dumped: after an FS link the task starts after its predecessor's end with at least the lag
      less one working days in between, after an SS link likewise from its predecessor's start. */
  lemma Precedence(req: PlanRequest, calendar: WeekendCalendar, plan: PlanResult,
                   e: Edge, a: Assignment, b: Assignment)
    requires Schedulable(req) && IsPlan(req, calendar, plan)
    requires LastEdge(req.dependencies, e.src, e.dst) == Some(e)
    requires a in plan.assignments && a.taskId == e.src
    requires b in plan.assignments && b.taskId == e.dst && !HasFixedId(req.tasks, b.taskId)
    ensures var from := if e.link == FS then a.endDate + 1 else a.startDate;
            && calendar.IsWorkingDay(b.startDate)
            && from <= b.startDate
            && (if 0 < e.lag then e.lag - 1 else 0) <= calendar.BusinessDays(from, b.startDate)
  {
    var order :| IsPlanAlong(req, calendar, order, plan);
    var team := MakeTeam(req.people, calendar, req.dayOverrides);
    var task, k := AssignmentOrigin(req, calendar, order, plan, b);
    var edges := Dag(req.tasks, req.dependencies).edges;
    DagFaithful(req.tasks, req.dependencies);
    var before := RunOrder(req, team, edges, order[..k]);
    PredecessorPlaced(req, calendar, order, plan, e, a, k);
    StartsAfterLinks(req, team, edges, before, task, e);
    LinkDateMeaning(calendar, e, a, b.startDate);
  }

  /** The same as a date. */
  lemma LinkKept(req: PlanRequest, calendar: WeekendCalendar, plan: PlanResult, e: Edge, a: Assignment, b: Assignment)
    requires Schedulable(req) && IsPlan(req, calendar, plan)
    requires LastEdge(req.dependencies, e.src, e.dst) == Some(e)
    requires a in plan.assignments && a.taskId == e.src
    requires b in plan.assignments && b.taskId == e.dst && !HasFixedId(req.tasks, b.taskId)
    ensures LinkDate(calendar, e, a) <= b.startDate
  {
    Precedence(req, calendar, plan, e, a, b);
    LinkDateMeaning(calendar, e, a, b.startDate);
  }

  lemma StartsAfterLinks(req: PlanRequest, team: Team, edges: seq<Edge>, before: Progress, task: Task, e: Edge)
    requires req.people != []
    requires task.isSplittable ==> 1 <= task.durationHours
    requires e in edges && e.dst == task.id && e.src in before.placed
    ensures var c := ChoiceFor(req, team, edges, before, task);
            && team.calendar.IsWorkingDay(c.placement.start)
            && LinkDate(team.calendar, e, before.placed[e.src]) <= c.placement.start
  {
    EarliestRespects(team.calendar, edges, task.id, before.placed, req.horizonStart);
    var est := EarliestStart(team.calendar, edges, task.id, before.placed, req.horizonStart);
    PlaceTaskStart(req.people, team, before.ledger, task, est, req.horizonStart + HORIZON_DAYS);
  }

  /** The shape of what a task gets at its turn. */
  lemma TurnShape(req: PlanRequest, team: Team, edges: seq<Edge>, before: Progress, task: Task)
    requires req.people != []
    requires task.isSplittable ==> 1 <= task.durationHours
    ensures var c := ChoiceFor(req, team, edges, before, task);
            && WellShaped(team.calendar, c.placement, req.horizonStart)
            && TotalHours(c.placement.Allocations()) == PlacedHours(req.people, task)
            && c.person in Eligible(req.people, task)
            && (forall a :: a in c.placement.Allocations() ==> a.person in Eligible(req.people, task))
  {
    hide PlaceTask;
    EarliestRespects(team.calendar, edges, task.id, before.placed, req.horizonStart);
    var est := EarliestStart(team.calendar, edges, task.id, before.placed, req.horizonStart);
    PlaceTaskShape(req.people, team, before.ledger, task, est, req.horizonStart + HORIZON_DAYS);
  }

  /** Who works on a task at its turn. */
  lemma TurnWorkers(req: PlanRequest, team: Team, edges: seq<Edge>, before: Progress, task: Task)
    requires req.people != []
    requires task.isSplittable ==> 1 <= task.durationHours
    ensures WorkedBy(req.people, task, ToAssignment(task.id, ChoiceFor(req, team, edges, before, task)))
  {
    hide PlaceTask;
    var est := EarliestStart(team.calendar, edges, task.id, before.placed, req.horizonStart);
    PlaceTaskWorkers(req.people, team, before.ledger, task, est, req.horizonStart + HORIZON_DAYS);
  }

  // Hours and shape -----------------------------------------------------------

  /** A task that is not fixed starts within the horizon, on working days only, with its dates
      at the ends of its work, and is worked for exactly its hours, by its assignee alone. A
      required pair is worked by the first two eligible people, for the full hours each; an
      external window by nobody. */
  lemma HoursConserved(req: PlanRequest, calendar: WeekendCalendar, plan: PlanResult, b: Assignment)
    requires Schedulable(req) && IsPlan(req, calendar, plan) && DistinctTasks(req.tasks)
    requires b in plan.assignments && !HasFixedId(req.tasks, b.taskId)
    ensures exists task :: task in req.tasks && task.id == b.taskId &&
              TotalHours(b.allocations) == PlacedHours(req.people, task) &&
              b.person in Eligible(req.people, task) && WorkedBy(req.people, task, b) &&
              forall x :: x in b.allocations ==> x.person in Eligible(req.people, task)
    ensures req.horizonStart <= b.startDate <= b.endDate
    ensures calendar.IsWorkingDay(b.startDate) && calendar.IsWorkingDay(b.endDate)
    ensures forall x :: x in b.allocations ==> b.startDate <= x.day <= b.endDate && calendar.IsWorkingDay(x.day)
    ensures b.allocations != [] ==> (exists x :: x in b.allocations && x.day == b.startDate) &&
                                    (exists x :: x in b.allocations && x.day == b.endDate)
  {
    var order :| IsPlanAlong(req, calendar, order, plan);
    var team := MakeTeam(req.people, calendar, req.dayOverrides);
    var edges := Dag(req.tasks, req.dependencies).edges;
    var task, k := AssignmentOrigin(req, calendar, order, plan, b);
    TurnShape(req, team, edges, RunOrder(req, team, edges, order[..k]), task);
    TurnWorkers(req, team, edges, RunOrder(req, team, edges, order[..k]), task);
  }

  lemma {:induction false} PrePlacedExactly(tasks: seq<Task>, existing: seq<DayAllocation>, t: Task)
    requires DistinctTasks(tasks) && t in tasks && IsFixed(t)
    ensures t.id in PrePlaced(tasks, existing).placed
    ensures PrePlaced(tasks, existing).placed[t.id] == FixedAssignment(t)
  {
    var init, last := tasks[..|tasks| - 1], tasks[|tasks| - 1];
    if t != last {
      assert tasks == init + [last];
      assert t in init;
      var i :| 0 <= i < |init| && init[i] == t;
      assert tasks[i].id != last.id;
      PrePlacedExactly(init, existing, t);
    }
  }

  /** A done task with a fixed start and assignee keeps them, its dates and its hours. */
  lemma FixedTasksStay(req: PlanRequest, calendar: WeekendCalendar, plan: PlanResult, t: Task)
    requires Schedulable(req) && IsPlan(req, calendar, plan) && DistinctTasks(req.tasks)
    requires t in req.tasks && IsFixed(t)
    ensures FixedAssignment(t) in plan.assignments
  {
    var order :| IsPlanAlong(req, calendar, order, plan);
    var team := MakeTeam(req.people, calendar, req.dayOverrides);
    var edges := Dag(req.tasks, req.dependencies).edges;
    PrePlacedExactly(req.tasks, req.existing, t);
    assert order[..0] == [];
    Persistent(req, team, edges, order, 0);
    PlanEntries(req, calendar, order, plan);
  }
}
