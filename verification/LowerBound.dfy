/** When the critical path bounds every plan from below, so that a deadline before it is always
    reported as missed. Some conditions are on the request; that a plan keeps within the day norms
    is one on its run, and follows from others, in the end from the request alone. */
module LowerBound {
  import opened Calendar
  import opened Models
  import opened Capacity
  import opened Graph
  import opened Allocators
  import opened Solver
  import opened Shapes
  import opened Plans
  import opened Overloads
  import opened Dumps
  import opened Optimality
  import opened CriticalPath
  import opened Text

  // Conditions on the request -----------------------------------------------------

  /** No person who may get the task can work more on a working day than the task's day norm. */
  ghost predicate WithinNorm(req: PlanRequest, team: Team, task: Task) {
    forall p, d :: p in Eligible(req.people, task) && team.calendar.IsWorkingDay(d) ==>
      team.BaseCapacity(p, d) <= DayNorm(req.people, task)
  }

  /** Every link waits for its predecessor's end. */
  ghost predicate EndLinksOnly(req: PlanRequest) {
    forall d :: d in req.dependencies ==> d.link == FS
  }

  ghost predicate NothingFixed(req: PlanRequest) {
    forall t :: t in req.tasks ==> !IsFixed(t)
  }

  /** A window counts eight hours a day, which must not be more than its norm. */
  ghost predicate WindowsWithinNorm(req: PlanRequest) {
    forall t :: t in req.tasks && t.isWindow ==> DAY_HOURS <= DayNorm(req.people, t)
  }

  ghost predicate PeopleWithinNorm(req: PlanRequest, calendar: WeekendCalendar) {
    forall t :: t in req.tasks ==> WithinNorm(req, MakeTeam(req.people, calendar, req.dayOverrides), t)
  }

  ghost predicate Boundable(req: PlanRequest, calendar: WeekendCalendar) {
    && EndLinksOnly(req) && NothingFixed(req) && WindowsWithinNorm(req) && PeopleWithinNorm(req, calendar)
  }

  // One task ------------------------------------------------------------------

  /** On no day does anyone put more than `norm` hours into the task. */
  ghost predicate DailyWithin(allocs: seq<DayAllocation>, norm: int) {
    forall p, d :: HoursOn(allocs, p, d) <= norm
  }

  /** A span covers the hours at `norm` a day. */
  ghost predicate Covers(hours: int, norm: int, days: nat) {
    1 <= days && hours <= norm * days
  }

  lemma RoundedUp(hours: int, norm: int, days: nat)
    requires 1 <= norm && hours <= norm * days
    ensures (hours + norm - 1) / norm <= days
  {
    var q := (hours + norm - 1) / norm;
    assert norm * q <= hours + norm - 1;
    if days + 1 <= q {
      ProductMonotone(norm, days + 1, q);
      assert false;
    }
  }

  lemma ProductMonotone(norm: int, a: int, b: int)
    requires 0 <= norm && a <= b
    ensures norm * a <= norm * b
  {
  }

  lemma CoversDuration(people: seq<Person>, task: Task, days: nat)
    requires Covers(task.durationHours, DayNorm(people, task), days)
    ensures DurationDays(people, task) <= days
  {
    var norm := DayNorm(people, task);
    RoundedUp(task.durationHours, norm, days);
  }

  lemma {:induction false} DeliveredBound(calendar: WeekendCalendar, dist: Date -> int, norm: int, a: Date, b: Date)
    requires forall d :: a <= d < b ==> dist(d) <= (if calendar.IsWorkingDay(d) then norm else 0)
    ensures Delivered(dist, a, b) <= norm * calendar.BusinessDays(a, b)
    decreases b - a
  {
    if a < b {
      DeliveredBound(calendar, dist, norm, a, b - 1);
    }
  }

  /** One person's work of `hours`, at most `norm` a day, takes the working days it must. */
  lemma WorkTakesDays(calendar: WeekendCalendar, allocs: seq<DayAllocation>, person: Id, norm: int, start: Date, end: Date)
    requires 1 <= norm && start <= end && calendar.IsWorkingDay(end)
    requires DailyWithin(allocs, norm)
    requires forall x :: x in allocs ==> x.person == person && start <= x.day <= end && calendar.IsWorkingDay(x.day)
    ensures Covers(TotalHours(allocs), norm, calendar.BusinessDays(start, end + 1))
  {
    var dist := (d: Date) => HoursOn(allocs, person, d);
    forall d | start <= d < end + 1
      ensures dist(d) <= if calendar.IsWorkingDay(d) then norm else 0
    {
      if !calendar.IsWorkingDay(d) {
        HoursOnAbsent(allocs, person, d);
      }
    }
    DeliveredTotal(allocs, person, start, end + 1);
    DeliveredBound(calendar, dist, norm, start, end + 1);
  }

  /** A placement that never exceeds the day norm spans enough working days for the task's hours. */
  lemma PlacementSpan(people: seq<Person>, team: Team, ledger: seq<DayAllocation>, task: Task,
                      earliest: Date, limit: Date)
    requires people != []
    requires task.isSplittable ==> 1 <= task.durationHours
    requires task.isWindow ==> DAY_HOURS <= DayNorm(people, task)
    requires DailyWithin(PlaceTask(people, team, ledger, task, earliest, limit).placement.Allocations(),
                         DayNorm(people, task))
    ensures var p := PlaceTask(people, team, ledger, task, earliest, limit).placement;
            Covers(task.durationHours, DayNorm(people, task), team.calendar.BusinessDays(p.start, p.end + 1))
  {
    hide PlaceSplit, PlaceTogether, PlaceWindow;
    var candidates := Eligible(people, task);
    var p := PlaceTask(people, team, ledger, task, earliest, limit).placement;
    if task.isWindow {
      WindowCoversNorm(team.calendar, task.durationHours, earliest, DayNorm(people, task));
    } else if task.pairMode == RequiredPair && 2 <= |candidates| {
      TogetherSpan(team, ledger, [candidates[0], candidates[1]], task.durationHours, earliest, limit,
                   DayNorm(people, task));
    } else {
      BestIsCandidate(team, ledger, task, candidates, earliest, limit);
      var person := BestChoice(team, ledger, task, candidates, earliest, limit).person;
      if task.isSplittable {
        SplitShape(team, ledger, person, task.durationHours, earliest, limit);
        WorkTakesDays(team.calendar, p.Allocations(), person, DayNorm(people, task), p.start, p.end);
      } else {
        TogetherSpan(team, ledger, [person], task.durationHours, earliest, limit, DayNorm(people, task));
      }
    }
  }

  lemma WindowCoversNorm(calendar: WeekendCalendar, hours: int, earliest: Date, norm: int)
    requires DAY_HOURS <= norm
    ensures var p := PlaceWindow(calendar, hours, earliest);
            Covers(hours, norm, calendar.BusinessDays(p.start, p.end + 1))
  {
    WindowShape(calendar, hours, earliest);
    assert DAY_HOURS * WindowSpan(hours) <= norm * WindowSpan(hours);
  }

  lemma TogetherSpan(team: Team, ledger: seq<DayAllocation>, people: seq<Id>, hours: int,
                     earliest: Date, limit: Date, norm: int)
    requires people != [] && 1 <= norm
    requires DailyWithin(PlaceTogether(team, ledger, people, hours, earliest, limit).Allocations(), norm)
    ensures var p := PlaceTogether(team, ledger, people, hours, earliest, limit);
            Covers(hours, norm, team.calendar.BusinessDays(p.start, p.end + 1))
  {
    var p := PlaceTogether(team, ledger, people, hours, earliest, limit);
    TogetherShape(team, ledger, people, hours, earliest, limit);
    OneDaySpan(team, people, p.start, hours, norm);
  }

  lemma OneDaySpan(team: Team, people: seq<Id>, day: Date, hours: int, norm: int)
    requires people != [] && 1 <= norm && team.calendar.IsWorkingDay(day)
    requires DailyWithin(OnDay(people, day, hours), norm)
    ensures Covers(hours, norm, team.calendar.BusinessDays(day, day + 1))
  {
    assert team.calendar.BusinessDays(day, day) == 0;
    if 0 < hours {
      HoursOfOne(people, day, hours);
    }
  }

  lemma {:induction false} HoursOfOne(people: seq<Id>, day: Date, hours: int)
    requires people != [] && 0 <= hours
    ensures hours <= HoursOn(OnDay(people, day, hours), people[0], day)
  {
    var allocs := OnDay(people, day, hours);
    assert allocs[..|people| - 1] == OnDay(people[..|people| - 1], day, hours);
    if 1 < |people| {
      HoursOfOne(people[..|people| - 1], day, hours);
    } else {
      assert allocs[..0] == [];
    }
  }

  // One chain -----------------------------------------------------------------

  /** The plan never exceeds a task's day norm in that task. */
  ghost predicate PlanWithinNorms(req: PlanRequest, plan: PlanResult) {
    forall a, t :: a in plan.assignments && t in req.tasks && t.id == a.taskId ==>
      DailyWithin(a.allocations, DayNorm(req.people, t))
  }

  lemma AssignmentSpan(req: PlanRequest, calendar: WeekendCalendar, plan: PlanResult, b: Assignment)
    requires Schedulable(req) && IsPlan(req, calendar, plan)
    requires NothingFixed(req) && WindowsWithinNorm(req) && PlanWithinNorms(req, plan)
    requires b in plan.assignments
    ensures req.horizonStart <= b.startDate <= b.endDate && calendar.IsWorkingDay(b.endDate)
    ensures 1 <= WorkDays(req, b.taskId) <= calendar.BusinessDays(b.startDate, b.endDate + 1)
  {
    var order :| IsPlanAlong(req, calendar, order, plan);
    var team := MakeTeam(req.people, calendar, req.dayOverrides);
    var edges := Dag(req.tasks, req.dependencies).edges;
    var task, k := AssignmentOrigin(req, calendar, order, plan, b);
    TurnSpan(req, team, edges, RunOrder(req, team, edges, order[..k]), task);
  }

  lemma TurnSpan(req: PlanRequest, team: Team, edges: seq<Edge>, before: Progress, task: Task)
    requires req.people != []
    requires task.isSplittable ==> 1 <= task.durationHours
    requires task.isWindow ==> DAY_HOURS <= DayNorm(req.people, task)
    requires DailyWithin(ChoiceFor(req, team, edges, before, task).placement.Allocations(), DayNorm(req.people, task))
    ensures var p := ChoiceFor(req, team, edges, before, task).placement;
            && req.horizonStart <= p.start <= p.end && team.calendar.IsWorkingDay(p.end)
            && 1 <= DurationDays(req.people, task) <= team.calendar.BusinessDays(p.start, p.end + 1)
  {
    var est := EarliestStart(team.calendar, edges, task.id, before.placed, req.horizonStart);
    hide PlaceTask;
    var p := ChoiceFor(req, team, edges, before, task).placement;
    TurnShape(req, team, edges, before, task);
    PlacementSpan(req.people, team, before.ledger, task, est, req.horizonStart + HORIZON_DAYS);
    CoversDuration(req.people, task, team.calendar.BusinessDays(p.start, p.end + 1));
  }

  ghost predicate AllTasks(req: PlanRequest) {
    forall n :: n in Dag(req.tasks, req.dependencies).nodes ==> IsTaskId(req.tasks, n)
  }

  lemma AssignmentFor(req: PlanRequest, calendar: WeekendCalendar, plan: PlanResult, n: Id) returns (b: Assignment)
    requires Schedulable(req) && IsPlan(req, calendar, plan)
    requires IsTaskId(req.tasks, n)
    ensures b in plan.assignments && b.taskId == n
  {
    Complete(req, calendar, plan);
    var i :| 0 <= i < |plan.assignments| && TaskIds(plan.assignments)[i] == n;
    b := plan.assignments[i];
  }

  /** The tasks of a chain, one after the other, fill at least its weight in working days. */
  lemma {:induction false} ChainFillsDays(req: PlanRequest, calendar: WeekendCalendar, plan: PlanResult, w: seq<Id>)
    returns (b: Assignment)
    requires Schedulable(req) && IsPlan(req, calendar, plan)
    requires Boundable(req, calendar) && PlanWithinNorms(req, plan) && AllTasks(req)
    requires Dag(req.tasks, req.dependencies).IsWalk(w)
    ensures b in plan.assignments && b.taskId == w[|w| - 1]
    ensures req.horizonStart <= b.endDate
    ensures Weight(req, w) <= calendar.BusinessDays(req.horizonStart, b.endDate + 1)
    decreases |w|
  {
    var v := w[|w| - 1];
    assert v in w;
    b := AssignmentFor(req, calendar, plan, v);
    AssignmentSpan(req, calendar, plan, b);
    if |w| == 1 {
      assert w[..0] == [];
      calendar.BusinessDaysAdditive(req.horizonStart, b.startDate, b.endDate + 1);
    } else {
      WalkInit(Dag(req.tasks, req.dependencies), w);
      var a := ChainFillsDays(req, calendar, plan, w[..|w| - 1]);
      LinkFillsDays(req, calendar, plan, a, b);
    }
  }

  /** A task that follows another adds its own working days to those before. */
  lemma LinkFillsDays(req: PlanRequest, calendar: WeekendCalendar, plan: PlanResult, a: Assignment, b: Assignment)
    requires Schedulable(req) && IsPlan(req, calendar, plan)
    requires Boundable(req, calendar) && PlanWithinNorms(req, plan)
    requires a in plan.assignments && b in plan.assignments && req.horizonStart <= a.endDate
    requires Dag(req.tasks, req.dependencies).Linked(a.taskId, b.taskId)
    ensures calendar.BusinessDays(req.horizonStart, a.endDate + 1) + WorkDays(req, b.taskId)
            <= calendar.BusinessDays(req.horizonStart, b.endDate + 1)
  {
    AssignmentSpan(req, calendar, plan, b);
    FollowsAfter(req, calendar, plan, a, b);
    calendar.BusinessDaysAdditive(req.horizonStart, b.startDate, b.endDate + 1);
    calendar.BusinessDaysAdditive(req.horizonStart, a.endDate + 1, b.startDate);
  }

  lemma FollowsAfter(req: PlanRequest, calendar: WeekendCalendar, plan: PlanResult, a: Assignment, b: Assignment)
    requires Schedulable(req) && IsPlan(req, calendar, plan) && Boundable(req, calendar)
    requires a in plan.assignments && b in plan.assignments
    requires Dag(req.tasks, req.dependencies).Linked(a.taskId, b.taskId)
    ensures a.endDate < b.startDate
  {
    LinkedByLast(req.tasks, req.dependencies, a.taskId, b.taskId);
    LastEdgeEnds(req.dependencies, a.taskId, b.taskId);
    var e := LastEdge(req.dependencies, a.taskId, b.taskId).value;
    LastEdgeIsFS(req.dependencies, a.taskId, b.taskId);
    Precedence(req, calendar, plan, e, a, b);
  }

  lemma {:induction false} LastEdgeIsFS(deps: seq<Dependency>, u: Id, v: Id)
    requires forall d :: d in deps ==> d.link == FS
    ensures LastEdge(deps, u, v).Some? ==> LastEdge(deps, u, v).value.link == FS
  {
    if deps != [] {
      LastEdgeIsFS(deps[..|deps| - 1], u, v);
    }
  }

  // The bound -----------------------------------------------------------------

  lemma {:induction false} LatestIsMax(assignments: seq<Assignment>)
    ensures LatestEnd(assignments).None? <==> assignments == []
    ensures LatestEnd(assignments).Some? ==>
              && (forall a :: a in assignments ==> a.endDate <= LatestEnd(assignments).value)
              && (exists a :: a in assignments && a.endDate == LatestEnd(assignments).value)
  {
    if assignments != [] {
      var init, last := assignments[..|assignments| - 1], assignments[|assignments| - 1];
      LatestIsMax(init);
      assert assignments == init + [last];
    }
  }

  /** No plan that keeps within the day norms ends before the critical path. */
  lemma PlanNotBeforeCriticalPath(req: PlanRequest, calendar: WeekendCalendar, plan: PlanResult, m: nat)
    requires Schedulable(req) && IsPlan(req, calendar, plan)
    requires Boundable(req, calendar) && PlanWithinNorms(req, plan) && AllTasks(req)
    requires IsLongest(req, Dag(req.tasks, req.dependencies), m)
    ensures plan.endDate.Some? ==> ChainEnd(calendar, req.horizonStart, m) <= plan.endDate.value
    ensures plan.endDate.Some? <==> req.tasks != []
  {
    var g := Dag(req.tasks, req.dependencies);
    DagFaithful(req.tasks, req.dependencies);
    LatestIsMax(plan.assignments);
    PlannedIffTasks(req, calendar, plan);
    if req.tasks != [] {
      assert IsTaskId(req.tasks, req.tasks[0].id);
      var w :| g.IsWalk(w) && Weight(req, w) == m;
      var b := ChainFillsDays(req, calendar, plan, w);
      AssignmentSpan(req, calendar, plan, b);
      calendar.AtLeastNth(req.horizonStart, m, b.endDate);
    }
  }

  lemma PlannedIffTasks(req: PlanRequest, calendar: WeekendCalendar, plan: PlanResult)
    requires Schedulable(req) && IsPlan(req, calendar, plan)
    ensures plan.assignments != [] <==> req.tasks != []
  {
    Complete(req, calendar, plan);
    if req.tasks != [] {
      var b := AssignmentFor(req, calendar, plan, req.tasks[0].id);
    }
    if plan.assignments != [] {
      assert TaskIds(plan.assignments)[0] in TaskIds(plan.assignments);
    }
  }

  // When a plan keeps within the norms ----------------------------------------------

  lemma OneNonNegative(team: Team, ledger: seq<DayAllocation>, task: Task, person: Id, earliest: Date, limit: Date)
    requires 0 <= task.durationHours
    requires task.isSplittable ==> 1 <= task.durationHours
    ensures NonNegativeHours(PlaceOne(team, ledger, task, person, earliest, limit).Allocations())
  {
    hide PlaceSplit, PlaceTogether;
    if task.isSplittable {
      SplitWork(team, ledger, person, task.durationHours, earliest, limit);
    } else {
      TogetherShape(team, ledger, [person], task.durationHours, earliest, limit);
    }
  }

  lemma PlacedNonNegative(people: seq<Person>, team: Team, ledger: seq<DayAllocation>, task: Task,
                          earliest: Date, limit: Date)
    requires people != [] && 0 <= task.durationHours
    requires task.isSplittable ==> 1 <= task.durationHours
    ensures NonNegativeHours(PlaceTask(people, team, ledger, task, earliest, limit).placement.Allocations())
  {
    var candidates := Eligible(people, task);
    if !task.isWindow && !(task.pairMode == RequiredPair && 2 <= |candidates|) {
      BestIsCandidate(team, ledger, task, candidates, earliest, limit);
      OneNonNegative(team, ledger, task, BestChoice(team, ledger, task, candidates, earliest, limit).person,
                     earliest, limit);
    }
  }

  lemma TurnNonNegative(req: PlanRequest, team: Team, edges: seq<Edge>, st: Progress, task: Task)
    requires req.people != [] && 0 <= task.durationHours
    requires task.isSplittable ==> 1 <= task.durationHours
    ensures NonNegativeHours(ChoiceFor(req, team, edges, st, task).placement.Allocations())
  {
    hide PlaceTask;
    var est := EarliestStart(team.calendar, edges, task.id, st.placed, req.horizonStart);
    PlacedNonNegative(req.people, team, st.ledger, task, est, req.horizonStart + HORIZON_DAYS);
  }

  lemma StepNonNegative(req: PlanRequest, team: Team, edges: seq<Edge>, st: Progress, id: Id)
    requires Schedulable(req) && NonNegativeDurations(req.tasks) && NonNegativeHours(st.ledger)
    ensures NonNegativeHours(Step(req, team, edges, st, id).ledger)
  {
    TaskByIdIsTask(req.tasks, id);
    var found := TaskById(req.tasks, id);
    if found.Some? && id !in st.placed {
      TurnNonNegative(req, team, edges, st, found.value);
      hide ChoiceFor;
      NonNegativeConcat(st.ledger, ChoiceFor(req, team, edges, st, found.value).placement.Allocations());
    }
  }

  lemma {:induction false} RunNonNegative(req: PlanRequest, team: Team, edges: seq<Edge>, order: seq<Id>)
    requires Schedulable(req) && NonNegativeDurations(req.tasks) && NonNegativeHours(req.existing)
    ensures NonNegativeHours(RunOrder(req, team, edges, order).ledger)
  {
    if order == [] {
      PrePlacedNonNegative(req.tasks, req.existing);
    } else {
      var init, id := order[..|order| - 1], order[|order| - 1];
      RunNonNegative(req, team, edges, init);
      StepNonNegative(req, team, edges, RunOrder(req, team, edges, init), id);
    }
  }

  lemma NonNegativeConcat(x: seq<DayAllocation>, y: seq<DayAllocation>)
    ensures NonNegativeHours(x + y) <==> NonNegativeHours(x) && NonNegativeHours(y)
  {
    assert forall a :: a in x + y <==> a in x || a in y;
  }

  lemma {:induction false} PrePlacedNonNegative(tasks: seq<Task>, existing: seq<DayAllocation>)
    requires NonNegativeDurations(tasks) && NonNegativeHours(existing)
    ensures NonNegativeHours(PrePlaced(tasks, existing).ledger)
  {
    if tasks != [] {
      var init, t := tasks[..|tasks| - 1], tasks[|tasks| - 1];
      assert tasks == init + [t];
      PrePlacedNonNegative(init, existing);
    }
  }

  lemma {:induction false} PartOfFlatten(assignments: seq<Assignment>, a: Assignment, person: Id, day: Date)
    requires a in assignments && NonNegativeHours(Flatten(assignments))
    ensures NonNegativeHours(a.allocations)
    ensures HoursOn(a.allocations, person, day) <= HoursOn(Flatten(assignments), person, day)
  {
    var init, last := assignments[..|assignments| - 1], assignments[|assignments| - 1];
    assert assignments == init + [last];
    HoursOnConcat(Flatten(init), last.allocations, person, day);
    assert NonNegativeHours(Flatten(init)) by {
      assert forall x :: x in Flatten(init) ==> x in Flatten(init) + last.allocations;
    }
    HoursOnNonNegative(Flatten(init), person, day);
    if a != last {
      PartOfFlatten(init, a, person, day);
      HoursOnNonNegative(last.allocations, person, day);
    } else {
      assert forall x :: x in last.allocations ==> x in Flatten(init) + last.allocations;
    }
  }

  /** Every allocation of a plan without fixed tasks is non-negative. */
  lemma PlanNonNegative(req: PlanRequest, calendar: WeekendCalendar, plan: PlanResult, b: Assignment)
    requires Schedulable(req) && IsPlan(req, calendar, plan)
    requires NonNegativeDurations(req.tasks) && forall t :: t in req.tasks ==> !IsFixed(t)
    requires b in plan.assignments
    ensures NonNegativeHours(b.allocations)
  {
    hide PlaceTask;
    var order :| IsPlanAlong(req, calendar, order, plan);
    var team := MakeTeam(req.people, calendar, req.dayOverrides);
    var edges := Dag(req.tasks, req.dependencies).edges;
    var task, k := AssignmentOrigin(req, calendar, order, plan, b);
    var before := RunOrder(req, team, edges, order[..k]);
    var est := EarliestStart(calendar, edges, task.id, before.placed, req.horizonStart);
    PlacedNonNegative(req.people, team, before.ledger, task, est, req.horizonStart + HORIZON_DAYS);
  }

  lemma {:induction false} FlattenNonNegative(assignments: seq<Assignment>)
    requires forall a :: a in assignments ==> NonNegativeHours(a.allocations)
    ensures NonNegativeHours(Flatten(assignments))
  {
    if assignments != [] {
      assert assignments == assignments[..|assignments| - 1] + [assignments[|assignments| - 1]];
      FlattenNonNegative(assignments[..|assignments| - 1]);
    }
  }

  /** A plan without overload flags keeps within every day norm. */
  lemma UnflaggedWithinNorms(req: PlanRequest, calendar: WeekendCalendar, plan: PlanResult)
    requires Schedulable(req) && IsPlan(req, calendar, plan) && Boundable(req, calendar)
    requires DistinctTasks(req.tasks) && NonNegativeDurations(req.tasks) && NonNegativeHours(req.existing)
    requires forall p, d :: !Flagged(plan, p, d)
    ensures PlanWithinNorms(req, plan)
  {
    forall b | b in plan.assignments ensures NonNegativeHours(b.allocations) {
      PlanNonNegative(req, calendar, plan, b);
    }
    FlattenNonNegative(plan.assignments);
    forall b, t, p, d | b in plan.assignments && t in req.tasks && t.id == b.taskId
      ensures HoursOn(b.allocations, p, d) <= DayNorm(req.people, t)
    {
      HoursConserved(req, calendar, plan, b);
      var task :| task in req.tasks && task.id == b.taskId &&
                  forall x :: x in b.allocations ==> x.person in Eligible(req.people, task);
      SameTask(req.tasks, t, task);
      if p in Eligible(req.people, t) && calendar.IsWorkingDay(d) {
        assert WithinNorm(req, MakeTeam(req.people, calendar, req.dayOverrides), t);
        FlagsExact(req, calendar, plan, p, d);
        HoursOnConcat(req.existing, Flatten(plan.assignments), p, d);
        HoursOnNonNegative(req.existing, p, d);
        PartOfFlatten(plan.assignments, b, p, d);
      } else {
        HoursOnAbsent(b.allocations, p, d);
      }
    }
  }

  lemma SameTask(tasks: seq<Task>, t: Task, u: Task)
    requires DistinctTasks(tasks) && t in tasks && u in tasks && t.id == u.id
    ensures t == u
  {
    var i :| 0 <= i < |tasks| && tasks[i] == t;
    var j :| 0 <= j < |tasks| && tasks[j] == u;
  }

  // Deadlines -----------------------------------------------------------------

  predicate MissesDeadline(plan: PlanResult) {
    exists r :: r in plan.risks && r.kind == DEADLINE_MISSED
  }

  /** The deadline flag is raised exactly when the plan ends after the deadline. */
  lemma DeadlineFlagExact(req: PlanRequest, calendar: WeekendCalendar, plan: PlanResult)
    requires Schedulable(req) && IsPlan(req, calendar, plan)
    ensures MissesDeadline(plan) <==>
            req.deadline.Some? && exists a :: a in plan.assignments && req.deadline.value < a.endDate
  {
    hide RunOrder, Dag, LatestEnd, IsOverloadReport, OverloadMessage, DateText;
    var order :| IsPlanAlong(req, calendar, order, plan);
    var team := MakeTeam(req.people, calendar, req.dayOverrides);
    var st := RunOrder(req, team, Dag(req.tasks, req.dependencies).edges, order);
    var report :| IsOverloadReport(team, st.ledger, report) &&
                  plan.risks == OverloadFlags(report) + DeadlineFlags(req.deadline, plan.endDate);
    LatestIsMax(plan.assignments);
    KindsDiffer();
    var flags := DeadlineFlags(req.deadline, plan.endDate);
    if flags != [] {
      assert flags[0] in plan.risks;
    }
    assert forall r :: r in OverloadFlags(report) ==> r.kind == OVERLOAD;
  }

  /** Whenever the critical path ends after the deadline, every plan that reports no overload
      reports the deadline missed. */
  lemma LateCriticalPathMissesDeadline(req: PlanRequest, calendar: WeekendCalendar, plan: PlanResult, m: nat)
    requires Schedulable(req) && IsPlan(req, calendar, plan) && Boundable(req, calendar)
    requires DistinctTasks(req.tasks) && NonNegativeDurations(req.tasks) && NonNegativeHours(req.existing)
    requires req.tasks != [] && AllTasks(req) && IsLongest(req, Dag(req.tasks, req.dependencies), m)
    requires req.deadline.Some? && req.deadline.value < ChainEnd(calendar, req.horizonStart, m)
    requires forall p, d :: !Flagged(plan, p, d)
    ensures MissesDeadline(plan)
  {
    UnflaggedWithinNorms(req, calendar, plan);
    PlanNotBeforeCriticalPath(req, calendar, plan, m);
    LatestIsMax(plan.assignments);
    DeadlineFlagExact(req, calendar, plan);
  }

  // Without looking at the flags ------------------------------------------------------

  /** No split task that takes more than a day is dumped. */
  ghost predicate LongSplitsFit(req: PlanRequest, team: Team, edges: seq<Edge>, order: seq<Id>)
    requires Schedulable(req)
  {
    forall k :: 0 <= k < |order| && TaskById(req.tasks, order[k]).Some? ==>
      var task := TaskById(req.tasks, order[k]).value;
      SplitsCleanly(req, team, edges, RunOrder(req, team, edges, order[..k]), task)
  }

  ghost predicate SplitsCleanly(req: PlanRequest, team: Team, edges: seq<Edge>, before: Progress, task: Task) {
    req.people != [] && (task.isSplittable ==> 1 <= task.durationHours) && IsLongSplit(req, task) ==>
      ChoiceFor(req, team, edges, before, task).placement.dumped == []
  }

  predicate OnSeveralDays(req: PlanRequest, task: Task) {
    task.isSplittable && !task.isWindow && !IsPair(req.people, task)
  }

  predicate IsLongSplit(req: PlanRequest, task: Task) {
    OnSeveralDays(req, task) && DayNorm(req.people, task) < task.durationHours
  }

  /** Tasks that are placed on one day fit into a day. */
  ghost predicate OneDayTasksFit(req: PlanRequest) {
    forall t :: t in req.tasks && !t.isWindow && !OnSeveralDays(req, t) ==>
      t.durationHours <= DayNorm(req.people, t)
  }

  lemma TogetherWithin(team: Team, ledger: seq<DayAllocation>, people: seq<Id>, hours: int,
                       earliest: Date, limit: Date, norm: int)
    requires people != [] && Distinct(people) && 0 <= hours <= norm
    ensures DailyWithin(PlaceTogether(team, ledger, people, hours, earliest, limit).Allocations(), norm)
  {
    var p := PlaceTogether(team, ledger, people, hours, earliest, limit);
    TogetherShape(team, ledger, people, hours, earliest, limit);
    forall q, d
      ensures HoursOn(p.Allocations(), q, d) <= norm
    {
      HoursOnDay(people, p.start, hours, q, d);
    }
  }

  lemma SplitWithin(team: Team, ledger: seq<DayAllocation>, person: Id, hours: int,
                    earliest: Date, limit: Date, norm: int)
    requires 1 <= hours && 0 <= norm && NonNegativeHours(ledger)
    requires forall d :: team.calendar.IsWorkingDay(d) ==> team.BaseCapacity(person, d) <= norm
    requires PlaceSplit(team, ledger, person, hours, earliest, limit).dumped == []
    ensures DailyWithin(PlaceSplit(team, ledger, person, hours, earliest, limit).Allocations(), norm)
  {
    var p := PlaceSplit(team, ledger, person, hours, earliest, limit);
    var first := team.calendar.FirstFrom(earliest);
    SplitShape(team, ledger, person, hours, earliest, limit);
    assert p.Allocations() == p.fitted;
    forall q, d
      ensures HoursOn(p.Allocations(), q, d) <= norm
    {
      if q == person {
        SpreadOn(team, ledger, person, hours, first, limit, d);
        HoursOnNonNegative(ledger, person, d);
      } else {
        HoursOnAbsent(p.fitted, q, d);
      }
    }
  }

  lemma {:induction false} HoursOnAtMostTotal(allocs: seq<DayAllocation>, person: Id, day: Date)
    requires NonNegativeHours(allocs)
    ensures 0 <= HoursOn(allocs, person, day) <= TotalHours(allocs)
  {
    if allocs != [] {
      HoursOnAtMostTotal(allocs[..|allocs| - 1], person, day);
    }
  }

  /** A split task that is no longer than the norm keeps within it even where it is dumped. */
  lemma ShortSplitWithin(team: Team, ledger: seq<DayAllocation>, person: Id, hours: int,
                         earliest: Date, limit: Date, norm: int)
    requires 1 <= hours <= norm
    ensures DailyWithin(PlaceSplit(team, ledger, person, hours, earliest, limit).Allocations(), norm)
  {
    hide PlaceSplit;
    var allocs := PlaceSplit(team, ledger, person, hours, earliest, limit).Allocations();
    SplitWork(team, ledger, person, hours, earliest, limit);
    forall q, d ensures HoursOn(allocs, q, d) <= norm {
      HoursOnAtMostTotal(allocs, q, d);
    }
  }

  lemma CleanTurnWithinNorm(req: PlanRequest, team: Team, edges: seq<Edge>, before: Progress, task: Task)
    requires req.people != [] && task in req.tasks && DistinctPeople(req)
    requires (task.isSplittable ==> 1 <= task.durationHours) && 0 <= task.durationHours
    requires WithinNorm(req, team, task) && OneDayTasksFit(req) && SplitsCleanly(req, team, edges, before, task)
    requires NonNegativeHours(before.ledger)
    ensures DailyWithin(ChoiceFor(req, team, edges, before, task).placement.Allocations(), DayNorm(req.people, task))
  {
    hide EarliestStart, BestChoice, PlaceSplit, PlaceTogether, PlaceWindow;
    var limit := req.horizonStart + HORIZON_DAYS;
    var est := EarliestStart(team.calendar, edges, task.id, before.placed, req.horizonStart);
    var hours, norm := task.durationHours, DayNorm(req.people, task);
    var candidates := Eligible(req.people, task);
    OnTeamDistinct(task.allowed, PersonIds(req.people));
    if task.isWindow {
      WindowShape(team.calendar, hours, est);
    } else if task.pairMode == RequiredPair && 2 <= |candidates| {
      TogetherWithin(team, before.ledger, [candidates[0], candidates[1]], hours, est, limit, norm);
    } else {
      BestIsCandidate(team, before.ledger, task, candidates, est, limit);
      var person := BestChoice(team, before.ledger, task, candidates, est, limit).person;
      if task.isSplittable && hours <= norm {
        ShortSplitWithin(team, before.ledger, person, hours, est, limit, norm);
      } else if task.isSplittable {
        SplitWithin(team, before.ledger, person, hours, est, limit, norm);
      } else {
        TogetherWithin(team, before.ledger, [person], hours, est, limit, norm);
      }
    }
  }

  /** Where one-day tasks fit into a day and no split task of more than a day is dumped, a plan
      keeps within every day norm, whatever it overloads. */
  lemma {:induction false} CleanRunWithinNorms(req: PlanRequest, calendar: WeekendCalendar, order: seq<Id>, plan: PlanResult)
    requires Schedulable(req) && IsPlanAlong(req, calendar, order, plan) && Boundable(req, calendar)
    requires DistinctTasks(req.tasks) && DistinctPeople(req) && NonNegativeDurations(req.tasks)
    requires NonNegativeHours(req.existing) && OneDayTasksFit(req)
    requires LongSplitsFit(req, MakeTeam(req.people, calendar, req.dayOverrides),
                           Dag(req.tasks, req.dependencies).edges, order)
    ensures PlanWithinNorms(req, plan)
  {
    var team := MakeTeam(req.people, calendar, req.dayOverrides);
    var edges := Dag(req.tasks, req.dependencies).edges;
    forall b, t | b in plan.assignments && t in req.tasks && t.id == b.taskId
      ensures DailyWithin(b.allocations, DayNorm(req.people, t))
    {
      var task, k := AssignmentOrigin(req, calendar, order, plan, b);
      SameTask(req.tasks, t, task);
      RunNonNegative(req, team, edges, order[..k]);
      assert SplitsCleanly(req, team, edges, RunOrder(req, team, edges, order[..k]), task);
      CleanTurnWithinNorm(req, team, edges, RunOrder(req, team, edges, order[..k]), task);
    }
  }

  // A team without differences --------------------------------------------------------

  /** Everyone who may do the task is on the team, with the same capacity, which no override lifts. */
  ghost predicate SharesCapacity(req: PlanRequest, task: Task, c: int) {
    && 1 <= c && task.allowed != []
    && (forall p :: p in task.allowed ==> p in CapacityMap(req.people) && CapacityMap(req.people)[p] == c)
    && (forall o :: o in req.dayOverrides && o.person in task.allowed ==> o.capacityHours <= c)
  }

  /** The plain case: links that wait for the end, no task fixed or external, even capacities. */
  ghost predicate EvenTeam(req: PlanRequest) {
    && (forall d :: d in req.dependencies ==> d.link == FS)
    && (forall t :: t in req.tasks ==> !IsFixed(t) && !t.isWindow && exists c :: SharesCapacity(req, t, c))
  }

  lemma {:induction false} CapacityMapKeys(people: seq<Person>)
    ensures forall p :: p in CapacityMap(people) <==> p in PersonIds(people)
  {
    if people != [] {
      CapacityMapKeys(people[..|people| - 1]);
      assert PersonIds(people) == PersonIds(people[..|people| - 1]) + [people[|people| - 1].id];
    }
  }

  lemma {:induction false} EvenCapacities(allowed: seq<Id>, capacity: map<Id, int>, c: int)
    requires allowed != [] && forall p :: p in allowed ==> p in capacity && capacity[p] == c
    ensures Capacities(allowed, capacity) != [] && MinOf(Capacities(allowed, capacity)) == c
  {
    assert allowed[0] in allowed;
    if 1 < |allowed| {
      EvenCapacities(allowed[1..], capacity, c);
    }
  }

  lemma {:induction false} OverrideOrigin(overrides: seq<DayOverride>, cell: Cell)
    requires cell in OverrideMap(overrides)
    ensures exists o :: o in overrides && o.person == cell.person && o.capacityHours == OverrideMap(overrides)[cell]
  {
    var init, last := overrides[..|overrides| - 1], overrides[|overrides| - 1];
    assert overrides == init + [last];
    if cell != Cell(last.person, last.day) {
      OverrideOrigin(init, cell);
    }
  }

  lemma EvenWithinNorm(req: PlanRequest, calendar: WeekendCalendar, task: Task, c: int)
    requires SharesCapacity(req, task, c)
    ensures DayNorm(req.people, task) == c
    ensures WithinNorm(req, MakeTeam(req.people, calendar, req.dayOverrides), task)
  {
    EvenCapacities(task.allowed, CapacityMap(req.people), c);
    CapacityMapKeys(req.people);
    OnTeamMembers(task.allowed, PersonIds(req.people));
    assert task.allowed[0] in OnTeam(task.allowed, PersonIds(req.people));
    var team := MakeTeam(req.people, calendar, req.dayOverrides);
    forall p, d | p in task.allowed
      ensures team.BaseCapacity(p, d) <= c
    {
      if Cell(p, d) in team.overrides {
        OverrideOrigin(req.dayOverrides, Cell(p, d));
      }
    }
  }

  lemma EvenTeamBoundable(req: PlanRequest, calendar: WeekendCalendar)
    requires EvenTeam(req)
    ensures Boundable(req, calendar)
  {
    forall t | t in req.tasks
      ensures WithinNorm(req, MakeTeam(req.people, calendar, req.dayOverrides), t)
    {
      var c :| SharesCapacity(req, t, c);
      EvenWithinNorm(req, calendar, t, c);
    }
  }

  /** On an even team no plan ends before the critical path, and a deadline before the critical
      path is always reported missed, provided one-day tasks fit into a day and no split task of
      more than a day is dumped. */
  lemma {:induction false} EvenTeamBound(req: PlanRequest, calendar: WeekendCalendar, order: seq<Id>, plan: PlanResult,
                                         m: nat)
    requires Schedulable(req) && IsPlanAlong(req, calendar, order, plan) && EvenTeam(req)
    requires DistinctTasks(req.tasks) && DistinctPeople(req) && NonNegativeDurations(req.tasks)
    requires NonNegativeHours(req.existing) && OneDayTasksFit(req)
    requires LongSplitsFit(req, MakeTeam(req.people, calendar, req.dayOverrides),
                           Dag(req.tasks, req.dependencies).edges, order)
    requires req.tasks != [] && AllTasks(req) && IsLongest(req, Dag(req.tasks, req.dependencies), m)
    ensures plan.endDate.Some? && ChainEnd(calendar, req.horizonStart, m) <= plan.endDate.value
    ensures req.deadline.Some? && req.deadline.value < ChainEnd(calendar, req.horizonStart, m) ==>
              MissesDeadline(plan)
  {
    EvenTeamBoundable(req, calendar);
    CleanRunWithinNorms(req, calendar, order, plan);
    assert IsPlan(req, calendar, plan);
    PlanNotBeforeCriticalPath(req, calendar, plan, m);
    LatestIsMax(plan.assignments);
    DeadlineFlagExact(req, calendar, plan);
  }

  /** Nothing takes longer than a day. */
  ghost predicate ShortTasks(req: PlanRequest) {
    forall t :: t in req.tasks ==> t.durationHours <= DayNorm(req.people, t)
  }

  /** Where no task takes longer than a day, the request alone decides. */
  lemma ShortTasksBound(req: PlanRequest, calendar: WeekendCalendar, plan: PlanResult, m: nat)
    requires Schedulable(req) && IsPlan(req, calendar, plan) && EvenTeam(req) && ShortTasks(req)
    requires DistinctTasks(req.tasks) && DistinctPeople(req) && NonNegativeDurations(req.tasks)
    requires NonNegativeHours(req.existing)
    requires req.tasks != [] && AllTasks(req) && IsLongest(req, Dag(req.tasks, req.dependencies), m)
    ensures plan.endDate.Some? && ChainEnd(calendar, req.horizonStart, m) <= plan.endDate.value
    ensures req.deadline.Some? && req.deadline.value < ChainEnd(calendar, req.horizonStart, m) ==>
              MissesDeadline(plan)
  {
    var order :| IsPlanAlong(req, calendar, order, plan);
    var team := MakeTeam(req.people, calendar, req.dayOverrides);
    var edges := Dag(req.tasks, req.dependencies).edges;
    forall k | 0 <= k < |order| && TaskById(req.tasks, order[k]).Some?
      ensures SplitsCleanly(req, team, edges, RunOrder(req, team, edges, order[..k]), TaskById(req.tasks, order[k]).value)
    {
      TaskByIdIsTask(req.tasks, order[k]);
    }
    EvenTeamBound(req, calendar, order, plan, m);
  }
}
