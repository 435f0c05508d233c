/** The greedy forward scheduler (`GreedySolver.plan` in src/planner/domain/solver/greedy.py).

    `RunOrder` is the schedule as a function of a topological order; `Plan` computes it over
    the mutable capacity index. */
module Solver {
  import opened Wrappers
  import opened Calendar
  import opened Models
  import opened Capacity
  import opened Graph
  import opened Allocators
  import opened Text

  const HORIZON_DAYS := 365

  datatype PlanError = NoPeople | Unfeasible

  // The request -----------------------------------------------------------

  /** A dictionary keyed by task id keeps the last task of an id. */
  function TaskById(tasks: seq<Task>, id: Id): Option<Task> {
    if tasks == [] then None
    else if tasks[|tasks| - 1].id == id then Some(tasks[|tasks| - 1])
    else TaskById(tasks[..|tasks| - 1], id)
  }

  function PersonIds(people: seq<Person>): seq<Id> {
    seq(|people|, i requires 0 <= i < |people| => people[i].id)
  }

  function OnTeam(allowed: seq<Id>, team: seq<Id>): seq<Id> {
    if allowed == [] then []
    else
      var rest := OnTeam(allowed[1..], team);
      if allowed[0] in team then [allowed[0]] + rest else rest
  }

  /** The allowed people who are on the team, in priority order; everyone when there are none. */
  function Eligible(people: seq<Person>, task: Task): seq<Id> {
    var chosen := OnTeam(task.allowed, PersonIds(people));
    if chosen != [] then chosen else PersonIds(people)
  }

  predicate IsFixed(t: Task) {
    t.status == Done && t.fixedStart.Some? && t.fixedAssignee.Some?
  }

  /** What the solver needs to run: people for the tasks, and hours to split. */
  ghost predicate Schedulable(req: PlanRequest) {
    && (req.tasks != [] ==> req.people != [])
    && HoursToSplit(req)
  }

  ghost predicate HoursToSplit(req: PlanRequest) {
    forall t :: t in req.tasks && t.isSplittable ==> 1 <= t.durationHours
  }

  lemma {:induction false} TaskByIdIsTask(tasks: seq<Task>, id: Id)
    ensures var t := TaskById(tasks, id);
            if t.Some? then t.value in tasks && t.value.id == id else !IsTaskId(tasks, id)
  {
    if tasks != [] {
      assert tasks == tasks[..|tasks| - 1] + [tasks[|tasks| - 1]];
      TaskByIdIsTask(tasks[..|tasks| - 1], id);
    }
  }

  /** Of several tasks with one id the last one counts. */
  lemma {:induction false} TaskByIdIsLast(tasks: seq<Task>, i: nat)
    requires i < |tasks|
    requires forall k :: i < k < |tasks| ==> tasks[k].id != tasks[i].id
    ensures TaskById(tasks, tasks[i].id) == Some(tasks[i])
  {
    if i < |tasks| - 1 {
      TaskByIdIsLast(tasks[..|tasks| - 1], i);
    }
  }

  // Dependencies ----------------------------------------------------------

  /** The day a link allows its successor to start. */
  function LinkDate(calendar: WeekendCalendar, e: Edge, pred: Assignment): Date {
    var base := if e.link == FS then calendar.FirstFrom(pred.endDate + 1) else pred.startDate;
    if 0 < e.lag then calendar.Nth(base, e.lag) else calendar.FirstFrom(base)
  }

  function EarliestStart(calendar: WeekendCalendar, edges: seq<Edge>, id: Id,
                         placed: map<Id, Assignment>, horizonStart: Date): Date
  {
    if edges == [] then horizonStart
    else
      var est := EarliestStart(calendar, edges[..|edges| - 1], id, placed, horizonStart);
      var e := edges[|edges| - 1];
      if e.dst == id && e.src in placed && est < LinkDate(calendar, e, placed[e.src])
      then LinkDate(calendar, e, placed[e.src])
      else est
  }

  method ComputeEarliestStart(calendar: WeekendCalendar, edges: seq<Edge>, id: Id,
                              placed: map<Id, Assignment>, horizonStart: Date) returns (est: Date)
    ensures est == EarliestStart(calendar, edges, id, placed, horizonStart)
  {
    hide WeekendCalendar.Nth, WeekendCalendar.FirstFrom;
    est := horizonStart;
    for i := 0 to |edges|
      invariant est == EarliestStart(calendar, edges[..i], id, placed, horizonStart)
    {
      assert edges[..i + 1][..i] == edges[..i];
      var e := edges[i];
      if e.dst == id && e.src in placed {
        var a := placed[e.src];
        var base := a.startDate;
        if e.link == FS {
          base := calendar.NextWorkingDay(a.endDate);
        }
        var cand;
        if 0 < e.lag {
          var nth := calendar.NthWorkingDay(base, e.lag);
          cand := nth.value;
        } else {
          cand := calendar.FirstWorkingDay(base);
        }
        if est < cand {
          est := cand;
        }
      }
    }
    assert edges[..|edges|] == edges;
  }

  // The schedule along an order ---------------------------------------------

  /** What has been placed, every recorded allocation, and those that were dumped. */
  datatype Progress = Progress(
    placed: map<Id, Assignment>,
    ledger: seq<DayAllocation>,
    dumps: seq<DayAllocation>)

  function FixedAssignment(t: Task): Assignment
    requires IsFixed(t)
  {
    var start := t.fixedStart.value;
    Assignment(t.id, t.fixedAssignee.value, start,
               if t.fixedEnd.Some? then t.fixedEnd.value else start,
               [DayAllocation(t.fixedAssignee.value, start, t.durationHours)])
  }

  /** Done tasks keep their dates and occupy capacity before anything else is placed. */
  function PrePlaced(tasks: seq<Task>, existing: seq<DayAllocation>): Progress {
    if tasks == [] then Progress(map[], existing, [])
    else
      var p := PrePlaced(tasks[..|tasks| - 1], existing);
      var t := tasks[|tasks| - 1];
      if IsFixed(t) then
        var a := FixedAssignment(t);
        Progress(p.placed[t.id := a], p.ledger + a.allocations, [])
      else p
  }

  function PlaceTask(people: seq<Person>, team: Team, ledger: seq<DayAllocation>, task: Task,
                     earliest: Date, limit: Date): Choice
    requires people != []
    requires task.isSplittable ==> 1 <= task.durationHours
  {
    var candidates := Eligible(people, task);
    if task.isWindow then
      Choice(candidates[0], PlaceWindow(team.calendar, task.durationHours, earliest))
    else if task.pairMode == RequiredPair && 2 <= |candidates| then
      Choice(candidates[0],
             PlaceTogether(team, ledger, [candidates[0], candidates[1]], task.durationHours, earliest, limit))
    else
      BestChoice(team, ledger, task, candidates, earliest, limit)
  }

  function ToAssignment(id: Id, c: Choice): Assignment {
    Assignment(id, c.person, c.placement.start, c.placement.end, c.placement.Allocations())
  }

  function Record(st: Progress, id: Id, c: Choice): Progress {
    Progress(st.placed[id := ToAssignment(id, c)],
             st.ledger + c.placement.Allocations(),
             st.dumps + c.placement.dumped)
  }

  ghost function ChoiceFor(req: PlanRequest, team: Team, edges: seq<Edge>, st: Progress, task: Task): Choice
    requires req.people != []
    requires task.isSplittable ==> 1 <= task.durationHours
  {
    var earliest := EarliestStart(team.calendar, edges, task.id, st.placed, req.horizonStart);
    PlaceTask(req.people, team, st.ledger, task, earliest, req.horizonStart + HORIZON_DAYS)
  }

  /** One turn of the main loop: pre-placed tasks and nodes that are no task are skipped. */
  ghost function Step(req: PlanRequest, team: Team, edges: seq<Edge>, st: Progress, id: Id): Progress
    requires Schedulable(req)
  {
    TaskByIdIsTask(req.tasks, id);
    match TaskById(req.tasks, id)
    case None => st
    case Some(task) =>
      if id in st.placed then st
      else Record(st, id, ChoiceFor(req, team, edges, st, task))
  }

  ghost function RunOrder(req: PlanRequest, team: Team, edges: seq<Edge>, order: seq<Id>): Progress
    requires Schedulable(req)
  {
    if order == [] then PrePlaced(req.tasks, req.existing)
    else Step(req, team, edges, RunOrder(req, team, edges, order[..|order| - 1]), order[|order| - 1])
  }

  function Ordered(order: seq<Id>, placed: map<Id, Assignment>): seq<Assignment> {
    if order == [] then []
    else
      var rest := Ordered(order[..|order| - 1], placed);
      var id := order[|order| - 1];
      if id in placed then rest + [placed[id]] else rest
  }

  function LatestEnd(assignments: seq<Assignment>): Option<Date> {
    if assignments == [] then None
    else
      var last := assignments[|assignments| - 1].endDate;
      match LatestEnd(assignments[..|assignments| - 1])
      case None => Some(last)
      case Some(d) => Some(if d < last then last else d)
  }

  // Risks -------------------------------------------------------------------

  /** Hours in whole working days, rounded up; without a day norm the hours themselves
      (src/planner/domain/units.py). */
  function HoursToWorkingDays(hours: int, capacity: int): int {
    if hours <= 0 then 0
    else if capacity <= 0 then hours
    else (hours + capacity - 1) / capacity
  }

  /** The days hold the hours at that capacity, and one day fewer would not. */
  lemma WorkingDaysRoundUp(hours: int, capacity: int)
    requires 0 < hours && 0 < capacity
    ensures var days := HoursToWorkingDays(hours, capacity);
            capacity * (days - 1) < hours <= capacity * days
  {
    var days := (hours + capacity - 1) / capacity;
    assert capacity * days <= hours + capacity - 1 < capacity * days + capacity;
  }

  function OverloadMessage(workingDays: int, day: Date): string {
    "≈" + Decimal(workingDays) + " раб. дн. нагрузки на 1 день, " + DateText(day) + "."
  }

  function OverloadFlag(o: Overload): RiskFlag {
    RiskFlag(OVERLOAD, OverloadMessage(HoursToWorkingDays(o.used, o.base), o.cell.day),
             None, Some(o.cell.person), Some(o.cell.day))
  }

  function OverloadFlags(report: seq<Overload>): seq<RiskFlag> {
    seq(|report|, i requires 0 <= i < |report| => OverloadFlag(report[i]))
  }

  function DeadlineFlags(deadline: Option<Date>, end: Option<Date>): seq<RiskFlag> {
    if deadline.Some? && end.Some? && deadline.value < end.value
    then [RiskFlag(DEADLINE_MISSED, "Plan ends " + DateText(end.value) + ", deadline " + DateText(deadline.value) + ".",
                   None, None, None)]
    else []
  }

  // Plans -------------------------------------------------------------------

  /** `plan` is what the scheduler returns when it follows `order`. */
  ghost predicate IsPlanAlong(req: PlanRequest, calendar: WeekendCalendar, order: seq<Id>, plan: PlanResult)
    requires Schedulable(req)
  {
    var team := MakeTeam(req.people, calendar, req.dayOverrides);
    var g := Dag(req.tasks, req.dependencies);
    var st := RunOrder(req, team, g.edges, order);
    && g.IsTopologicalOrder(order)
    && plan.assignments == Ordered(order, st.placed)
    && plan.endDate == LatestEnd(plan.assignments)
    && exists report :: IsOverloadReport(team, st.ledger, report) &&
                        plan.risks == OverloadFlags(report) + DeadlineFlags(req.deadline, plan.endDate)
  }

  ghost predicate IsPlan(req: PlanRequest, calendar: WeekendCalendar, plan: PlanResult)
    requires Schedulable(req)
  {
    exists order :: IsPlanAlong(req, calendar, order, plan)
  }

  method SchedulePrePlaced(tasks: seq<Task>, idx: CapacityIndex) returns (placed: map<Id, Assignment>)
    requires idx.Valid()
    modifies idx
    ensures idx.Valid()
    ensures var p := PrePlaced(tasks, old(idx.ledger)); placed == p.placed && idx.ledger == p.ledger
  {
    placed := map[];
    for i := 0 to |tasks|
      invariant idx.Valid()
      invariant var p := PrePlaced(tasks[..i], old(idx.ledger)); placed == p.placed && idx.ledger == p.ledger
    {
      assert tasks[..i + 1][..i] == tasks[..i];
      var t := tasks[i];
      if IsFixed(t) {
        var a := FixedAssignment(t);
        idx.Occupy(a.allocations);
        placed := placed[t.id := a];
      }
    }
    assert tasks[..|tasks|] == tasks;
  }

  /** Places one task: an external window, a required pair, or a race between the candidates. */
  method ScheduleTask(people: seq<Person>, task: Task, earliest: Date, idx: CapacityIndex, limit: Date)
    returns (a: Assignment)
    requires idx.Valid() && people != []
    requires task.isSplittable ==> 1 <= task.durationHours
    modifies idx
    ensures idx.Valid()
    ensures var c := PlaceTask(people, idx.team, old(idx.ledger), task, earliest, limit);
            a == ToAssignment(task.id, c) && idx.ledger == old(idx.ledger) + c.placement.Allocations()
  {
    var allowed := Eligible(people, task);
    var allocs, start, end, person;
    if task.isWindow {
      allocs, start, end := AllocateWindow(task, earliest, idx.team.calendar);
      person := allowed[0];
    } else if task.pairMode == RequiredPair && 2 <= |allowed| {
      allocs, start, end := AllocatePair(task, allowed[0], allowed[1], earliest, idx, limit);
      person := allowed[0];
    } else {
      allocs, start, end, person := Race(task, allowed, earliest, idx, limit);
    }
    idx.Occupy(allocs);
    a := Assignment(task.id, person, start, end, allocs);
  }

  method CollectOrdered(order: seq<Id>, placed: map<Id, Assignment>) returns (assignments: seq<Assignment>)
    ensures assignments == Ordered(order, placed)
  {
    assignments := [];
    for i := 0 to |order|
      invariant assignments == Ordered(order[..i], placed)
    {
      assert order[..i + 1][..i] == order[..i];
      if order[i] in placed {
        assignments := assignments + [placed[order[i]]];
      }
    }
    assert order[..|order|] == order;
  }

  /** The main loop over the topological order. */
  method ScheduleAll(req: PlanRequest, edges: seq<Edge>, order: seq<Id>, idx: CapacityIndex)
    returns (placed: map<Id, Assignment>)
    requires Schedulable(req)
    requires idx.Valid() && idx.ledger == req.existing
    modifies idx
    ensures idx.Valid()
    ensures var st := RunOrder(req, idx.team, edges, order); placed == st.placed && idx.ledger == st.ledger
  {
    hide PlaceTask, EarliestStart, PrePlaced, TaskById;
    placed := SchedulePrePlaced(req.tasks, idx);
    ghost var st := PrePlaced(req.tasks, req.existing);
    for i := 0 to |order|
      invariant idx.Valid()
      invariant st == RunOrder(req, idx.team, edges, order[..i])
      invariant placed == st.placed && idx.ledger == st.ledger
    {
      assert order[..i + 1][..i] == order[..i];
      st := Step(req, idx.team, edges, st, order[i]);
      TaskByIdIsTask(req.tasks, order[i]);
      var found := TaskById(req.tasks, order[i]);
      if order[i] !in placed && found.Some? {
        var task := found.value;
        var earliest := ComputeEarliestStart(idx.team.calendar, edges, task.id, placed, req.horizonStart);
        var a := ScheduleTask(req.people, task, earliest, idx, req.horizonStart + HORIZON_DAYS);
        placed := placed[task.id := a];
      }
    }
    assert order[..|order|] == order;
  }

  method Plan(req: PlanRequest, calendar: WeekendCalendar) returns (r: Result<PlanResult, PlanError>)
    requires HoursToSplit(req)
    ensures r == Failure(NoPeople) <==> req.tasks != [] && req.people == []
    ensures r == Failure(Unfeasible) <==>
              (req.tasks == [] || req.people != []) && Dag(req.tasks, req.dependencies).HasCycle()
    ensures r.Success? ==> Schedulable(req) && IsPlan(req, calendar, r.value)
  {
    if req.tasks != [] && req.people == [] {
      return Failure(NoPeople);
    }
    var g := BuildDag(req.tasks, req.dependencies);
    DagFaithful(req.tasks, req.dependencies);
    var sorted := TopologicalSort(g);
    if sorted.None? {
      return Failure(Unfeasible);
    }
    var order := sorted.value;
    OrderedIsAcyclic(g, order);
    var idx := new CapacityIndex(req.people, calendar, req.dayOverrides, req.existing);
    var placed := ScheduleAll(req, g.edges, order, idx);
    var report := idx.Overloads();
    var assignments := CollectOrdered(order, placed);
    var end := LatestEnd(assignments);
    var plan := PlanResult(assignments, OverloadFlags(report) + DeadlineFlags(req.deadline, end), end);
    assert IsPlanAlong(req, calendar, order, plan);
    r := Success(plan);
  }
}
