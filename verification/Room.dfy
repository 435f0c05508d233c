/** When nothing is dumped: a condition that can be read off the request. The frontier is a day
    that all load and all placed tasks lie behind. Each turn moves it by a bounded number of
    working days, so a horizon with enough of them has room for every task. */
module Room {
  import opened Calendar
  import opened Models
  import opened Capacity
  import opened Graph
  import opened Weights
  import opened Allocators
  import opened Solver
  import opened Shapes
  import opened Plans
  import opened Overloads
  import opened Dumps
  import opened Optimality
  import opened CriticalPath
  import opened LowerBound

  // What a task needs -----------------------------------------------------------

  /** The longest wait any link asks for, in working days; a plain link waits for one. */
  function LongestWait(edges: seq<Edge>): (wait: nat)
    ensures 1 <= wait
    ensures forall e :: e in edges ==> e.lag <= wait
  {
    if edges == [] then 1
    else
      var wait := LongestWait(edges[..|edges| - 1]);
      assert edges == edges[..|edges| - 1] + [edges[|edges| - 1]];
      if wait < edges[|edges| - 1].lag then edges[|edges| - 1].lag else wait
  }

  /** The working days a task takes when it has them to itself. */
  function OwnDays(req: PlanRequest, task: Task): (days: nat)
    ensures 1 <= days
  {
    if task.isWindow then WindowSpan(task.durationHours)
    else if OnSeveralDays(req, task) then DurationDays(req.people, task)
    else 1
  }

  /** The hours a free day must offer to whoever does the task. */
  function DayNeed(req: PlanRequest, task: Task): int {
    if OnSeveralDays(req, task) then DayNorm(req.people, task) else task.durationHours
  }

  /** On every working day of the horizon everyone who may do a task has the capacity for it. */
  ghost predicate FullDays(req: PlanRequest, calendar: WeekendCalendar, task: Task) {
    forall p, d :: p in Eligible(req.people, task) && calendar.IsWorkingDay(d) &&
                   req.horizonStart <= d <= req.horizonStart + HORIZON_DAYS ==>
      DayNeed(req, task) <= MakeTeam(req.people, calendar, req.dayOverrides).BaseCapacity(p, d)
  }

  /** By how many working days a turn can move the frontier. */
  function TurnDays(req: PlanRequest, edges: seq<Edge>, id: Id): nat {
    match TaskById(req.tasks, id)
    case None => 0
    case Some(task) => LongestWait(edges) - 1 + OwnDays(req, task)
  }

  function TurnWeights(req: PlanRequest): map<Id, int> {
    var g := Dag(req.tasks, req.dependencies);
    map id | id in g.nodes :: TurnDays(req, g.edges, id)
  }

  /** `n` working days past a day. */
  function Ahead(calendar: WeekendCalendar, day: Date, n: nat): (d: Date)
    ensures day <= d
  {
    if n == 0 then day else calendar.Nth(day + 1, n)
  }

  /** The existing load and the fixed tasks lie behind the frontier, and the horizon has room for
      all turns beyond it. */
  ghost predicate RoomForAll(req: PlanRequest, calendar: WeekendCalendar, frontier: Date) {
    && req.horizonStart - 1 <= frontier
    && (forall a :: a in req.existing ==> a.day <= frontier)
    && (forall t :: t in req.tasks && IsFixed(t) ==>
          FixedAssignment(t).startDate <= frontier && FixedAssignment(t).endDate <= frontier)
    && (forall t :: t in req.tasks && !t.isWindow ==> FullDays(req, calendar, t))
    && 0 <= WeightOf(Dag(req.tasks, req.dependencies).nodes, TurnWeights(req))
    && Ahead(calendar, frontier, WeightOf(Dag(req.tasks, req.dependencies).nodes, TurnWeights(req)))
       <= req.horizonStart + HORIZON_DAYS
  }

  // The frontier -------------------------------------------------------------------

  lemma AheadAdds(calendar: WeekendCalendar, day: Date, a: nat, b: nat)
    ensures Ahead(calendar, Ahead(calendar, day, a), b) == Ahead(calendar, day, a + b)
  {
    if 0 < a && 0 < b {
      calendar.NthAfter(day + 1, a, b);
    }
  }

  lemma AheadMonotone(calendar: WeekendCalendar, day: Date, a: nat, b: nat)
    requires a <= b
    ensures Ahead(calendar, day, a) <= Ahead(calendar, day, b)
  {
    if 0 < a < b {
      calendar.NthStrictlyMonotone(day + 1, a, b);
    }
  }

  /** All load and all placed tasks lie behind the frontier. */
  ghost predicate Behind(st: Progress, frontier: Date) {
    && (forall a :: a in st.ledger ==> a.day <= frontier)
    && (forall id :: id in st.placed ==> st.placed[id].startDate <= frontier && st.placed[id].endDate <= frontier)
  }

  lemma {:induction false} NothingBeyond(ledger: seq<DayAllocation>, frontier: Date, person: Id, day: Date)
    requires (forall a :: a in ledger ==> a.day <= frontier) && frontier < day
    ensures HoursOn(ledger, person, day) == 0
  {
    HoursOnAbsent(ledger, person, day);
  }

  /** A link from behind the frontier waits no longer than its lag beyond it. */
  lemma LinkNearFrontier(calendar: WeekendCalendar, e: Edge, pred: Assignment, frontier: Date, wait: nat)
    requires pred.startDate <= frontier && pred.endDate <= frontier
    requires 1 <= wait && e.lag <= wait
    ensures LinkDate(calendar, e, pred) <= calendar.Nth(frontier + 1, wait)
  {
    var lag := if 0 < e.lag then e.lag else 1;
    if e.link == FS {
      calendar.NthMonotoneInStart(pred.endDate + 1, frontier + 1, 1);
      NthNearFrontier(calendar, calendar.FirstFrom(pred.endDate + 1), frontier, lag, wait);
    } else {
      NthNearFrontier(calendar, pred.startDate, frontier, lag, wait);
    }
  }

  lemma NthNearFrontier(calendar: WeekendCalendar, base: Date, frontier: Date, lag: nat, wait: nat)
    requires base <= calendar.Nth(frontier + 1, 1) && 1 <= lag <= wait
    ensures calendar.Nth(base, lag) <= calendar.Nth(frontier + 1, wait)
  {
    calendar.NthMonotoneInStart(base, calendar.Nth(frontier + 1, 1), lag);
    calendar.NthCompose(frontier + 1, 1, lag);
    calendar.NthStrictlyMonotone(frontier + 1, wait, lag);
  }

  lemma StartNearFrontier(req: PlanRequest, calendar: WeekendCalendar, edges: seq<Edge>, st: Progress, id: Id, frontier: Date)
    requires Behind(st, frontier) && req.horizonStart - 1 <= frontier
    ensures EarliestStart(calendar, edges, id, st.placed, req.horizonStart)
            <= calendar.Nth(frontier + 1, LongestWait(edges))
  {
    EarliestIsForced(calendar, edges, id, st.placed, req.horizonStart);
    forall e | e in edges && e.dst == id && e.src in st.placed
      ensures LinkDate(calendar, e, st.placed[e.src]) <= calendar.Nth(frontier + 1, LongestWait(edges))
    {
      LinkNearFrontier(calendar, e, st.placed[e.src], frontier, LongestWait(edges));
    }
  }

  // One turn ------------------------------------------------------------------------

  /** A placement that fits and ends by `end`. */
  predicate FitsBy(p: Placement, end: Date) {
    p.dumped == [] && p.end <= end
  }

  lemma TogetherFitsBy(team: Team, ledger: seq<DayAllocation>, people: seq<Id>, hours: int,
                       earliest: Date, limit: Date, frontier: Date, day: Date)
    requires people != [] && earliest <= day <= limit && frontier < day && team.calendar.IsWorkingDay(day)
    requires forall a :: a in ledger ==> a.day <= frontier
    requires forall p :: p in people ==> hours <= team.BaseCapacity(p, day)
    ensures FitsBy(PlaceTogether(team, ledger, people, hours, earliest, limit), day)
  {
    forall p | p in people ensures hours <= team.Remaining(ledger, p, day) {
      NothingBeyond(ledger, frontier, p, day);
    }
    TogetherEarliest(team, ledger, people, hours, earliest, limit, day);
    TogetherShape(team, ledger, people, hours, earliest, limit);
  }

  lemma {:induction false} SupplyAtLeast(team: Team, ledger: seq<DayAllocation>, person: Id, norm: int, a: Date, b: Date)
    requires forall d :: a <= d < b && team.calendar.IsWorkingDay(d) ==> norm <= FreeOn(team, ledger, person, d)
    ensures norm * team.calendar.BusinessDays(a, b) <= Supply(team, ledger, person, a, b)
    decreases b - a
  {
    if a < b {
      SupplyAtLeast(team, ledger, person, norm, a, b - 1);
    }
  }

  /** Free days from `day` on that hold the hours: the split is done by the last of them. */
  lemma SplitFitsBy(team: Team, ledger: seq<DayAllocation>, person: Id, hours: int, earliest: Date, limit: Date,
                    frontier: Date, day: Date, norm: int, days: nat)
    requires 1 <= hours <= norm * days && 1 <= days
    requires earliest <= day && frontier < day && team.calendar.IsWorkingDay(day)
    requires team.calendar.Nth(day, days) <= limit
    requires forall a :: a in ledger ==> a.day <= frontier
    requires forall d :: day <= d <= limit && team.calendar.IsWorkingDay(d) ==> norm <= team.BaseCapacity(person, d)
    ensures FitsBy(PlaceSplit(team, ledger, person, hours, earliest, limit), team.calendar.Nth(day, days))
  {
    hide PlaceSplit, Supply;
    var last := team.calendar.Nth(day, days);
    var first := team.calendar.FirstFrom(earliest);
    forall d | day <= d < last + 1 && team.calendar.IsWorkingDay(d)
      ensures norm <= FreeOn(team, ledger, person, d)
    {
      NothingBeyond(ledger, frontier, person, d);
    }
    SupplyAtLeast(team, ledger, person, norm, day, last + 1);
    team.calendar.NthCount(day, days);
    SupplyConcat(team, ledger, person, first, day, last + 1);
    SupplyNonNegative(team, ledger, person, first, day);
    SplitDoneBy(team, ledger, person, hours, earliest, limit, last);
  }

  lemma SplitDoneBy(team: Team, ledger: seq<DayAllocation>, person: Id, hours: int, earliest: Date, limit: Date, last: Date)
    requires 1 <= hours && team.calendar.FirstFrom(earliest) <= last <= limit
    requires hours <= Supply(team, ledger, person, team.calendar.FirstFrom(earliest), last + 1)
    ensures FitsBy(PlaceSplit(team, ledger, person, hours, earliest, limit), last)
  {
    hide Supply;
    var first := team.calendar.FirstFrom(earliest);
    SupplyGrows(team, ledger, person, first, last + 1, limit + 1);
    LeftoverIsShortage(team, ledger, person, hours, first, limit);
    SplitDates(team, ledger, person, hours, earliest, limit);
    var end := PlaceSplit(team, ledger, person, hours, earliest, limit).end;
    if last < end {
      SupplyGrows(team, ledger, person, first, last + 1, end);
    }
  }

  lemma WindowFitsBy(calendar: WeekendCalendar, hours: int, earliest: Date, day: Date)
    requires earliest <= day && calendar.IsWorkingDay(day)
    ensures FitsBy(PlaceWindow(calendar, hours, earliest), calendar.Nth(day, WindowSpan(hours)))
  {
    calendar.NthMonotoneInStart(calendar.FirstFrom(earliest), day, WindowSpan(hours));
  }

  /** A candidate of the race: done `OwnDays` working days from `day` on. */
  lemma OneFitsBy(req: PlanRequest, calendar: WeekendCalendar, ledger: seq<DayAllocation>, task: Task, person: Id,
                  earliest: Date, frontier: Date, day: Date)
    requires task.isSplittable ==> 1 <= task.durationHours
    requires !task.isWindow && !IsPair(req.people, task)
    requires person in Eligible(req.people, task) && FullDays(req, calendar, task)
    requires earliest <= day && frontier < day && req.horizonStart <= day && calendar.IsWorkingDay(day)
    requires calendar.Nth(day, OwnDays(req, task)) <= req.horizonStart + HORIZON_DAYS
    requires forall a :: a in ledger ==> a.day <= frontier
    ensures FitsBy(PlaceOne(MakeTeam(req.people, calendar, req.dayOverrides), ledger, task, person, earliest,
                            req.horizonStart + HORIZON_DAYS),
                   calendar.Nth(day, OwnDays(req, task)))
  {
    hide PlaceSplit, PlaceTogether, DurationDays, DayNorm;
    var team := MakeTeam(req.people, calendar, req.dayOverrides);
    var limit := req.horizonStart + HORIZON_DAYS;
    if task.isSplittable {
      DurationIsCeiling(req.people, task);
      SplitFitsBy(team, ledger, person, task.durationHours, earliest, limit, frontier, day,
                  DayNorm(req.people, task), DurationDays(req.people, task));
    } else {
      TogetherFitsBy(team, ledger, [person], task.durationHours, earliest, limit, frontier, day);
    }
  }

  lemma TaskFitsBy(req: PlanRequest, calendar: WeekendCalendar, ledger: seq<DayAllocation>, task: Task,
                   earliest: Date, frontier: Date, day: Date)
    requires req.people != [] && (task.isSplittable ==> 1 <= task.durationHours)
    requires !task.isWindow ==> FullDays(req, calendar, task)
    requires earliest <= day && frontier < day && req.horizonStart <= day && calendar.IsWorkingDay(day)
    requires calendar.Nth(day, OwnDays(req, task)) <= req.horizonStart + HORIZON_DAYS
    requires forall a :: a in ledger ==> a.day <= frontier
    ensures FitsBy(PlaceTask(req.people, MakeTeam(req.people, calendar, req.dayOverrides), ledger, task, earliest,
                             req.horizonStart + HORIZON_DAYS).placement,
                   calendar.Nth(day, OwnDays(req, task)))
  {
    hide PlaceTogether, PlaceOne, PlaceWindow, DurationDays, DayNorm;
    var team := MakeTeam(req.people, calendar, req.dayOverrides);
    var limit := req.horizonStart + HORIZON_DAYS;
    var candidates := Eligible(req.people, task);
    if task.isWindow {
      WindowFitsBy(calendar, task.durationHours, earliest, day);
    } else if IsPair(req.people, task) {
      TogetherFitsBy(team, ledger, [candidates[0], candidates[1]], task.durationHours, earliest, limit, frontier, day);
    } else {
      BestIsCandidate(team, ledger, task, candidates, earliest, limit);
      OneFitsBy(req, calendar, ledger, task, BestChoice(team, ledger, task, candidates, earliest, limit).person,
                earliest, frontier, day);
    }
  }

  /** A turn moves the frontier by its days and dumps nothing. */
  lemma TurnFits(req: PlanRequest, calendar: WeekendCalendar, edges: seq<Edge>, st: Progress, task: Task, frontier: Date)
    requires req.people != [] && (task.isSplittable ==> 1 <= task.durationHours)
    requires !task.isWindow ==> FullDays(req, calendar, task)
    requires Behind(st, frontier) && req.horizonStart - 1 <= frontier
    requires Ahead(calendar, frontier, LongestWait(edges) - 1 + OwnDays(req, task)) <= req.horizonStart + HORIZON_DAYS
    ensures FitsBy(ChoiceFor(req, MakeTeam(req.people, calendar, req.dayOverrides), edges, st, task).placement,
                   Ahead(calendar, frontier, LongestWait(edges) - 1 + OwnDays(req, task)))
  {
    hide PlaceTask, OwnDays, LongestWait;
    var day := calendar.Nth(frontier + 1, LongestWait(edges));
    StartNearFrontier(req, calendar, edges, st, task.id, frontier);
    calendar.NthCompose(frontier + 1, LongestWait(edges), OwnDays(req, task));
    TaskFitsBy(req, calendar, st.ledger, task,
               EarliestStart(calendar, edges, task.id, st.placed, req.horizonStart), frontier, day);
  }

  /** What a turn records lies behind the new frontier. */
  lemma RecordBehind(st: Progress, task: Task, c: Choice, calendar: WeekendCalendar, earliest: Date, before: Date, after: Date)
    requires Behind(st, before) && before <= after && FitsBy(c.placement, after)
    requires WellShaped(calendar, c.placement, earliest)
    ensures Behind(Record(st, task.id, c), after)
  {
  }

  // The run ---------------------------------------------------------------------------

  lemma {:induction false} PrePlacedBehind(tasks: seq<Task>, existing: seq<DayAllocation>, frontier: Date)
    requires forall a :: a in existing ==> a.day <= frontier
    requires forall t :: t in tasks && IsFixed(t) ==>
               FixedAssignment(t).startDate <= frontier && FixedAssignment(t).endDate <= frontier
    ensures Behind(PrePlaced(tasks, existing), frontier)
  {
    if tasks != [] {
      assert tasks == tasks[..|tasks| - 1] + [tasks[|tasks| - 1]];
      PrePlacedBehind(tasks[..|tasks| - 1], existing, frontier);
    }
  }

  lemma StepFits(req: PlanRequest, calendar: WeekendCalendar, edges: seq<Edge>, st: Progress, id: Id, frontier: Date)
    requires Schedulable(req) && Behind(st, frontier) && req.horizonStart - 1 <= frontier && st.dumps == []
    requires forall t :: t in req.tasks && !t.isWindow ==> FullDays(req, calendar, t)
    requires Ahead(calendar, frontier, TurnDays(req, edges, id)) <= req.horizonStart + HORIZON_DAYS
    ensures var next := Step(req, MakeTeam(req.people, calendar, req.dayOverrides), edges, st, id);
            next.dumps == [] && Behind(next, Ahead(calendar, frontier, TurnDays(req, edges, id)))
  {
    hide ChoiceFor, OwnDays, LongestWait;
    TaskByIdIsTask(req.tasks, id);
    var found := TaskById(req.tasks, id);
    if found.Some? && id !in st.placed {
      var team := MakeTeam(req.people, calendar, req.dayOverrides);
      TurnFits(req, calendar, edges, st, found.value, frontier);
      TurnShape(req, team, edges, st, found.value);
      RecordBehind(st, found.value, ChoiceFor(req, team, edges, st, found.value), calendar, req.horizonStart,
                   frontier, Ahead(calendar, frontier, TurnDays(req, edges, id)));
    }
  }

  lemma WeightsNonNegative(req: PlanRequest)
    ensures forall n :: n in TurnWeights(req) ==> 0 <= TurnWeights(req)[n]
  {
  }

  /** Along any topological order the frontier stays within the horizon and nothing is dumped. */
  lemma {:induction false} RunFits(req: PlanRequest, calendar: WeekendCalendar, order: seq<Id>, frontier: Date, k: nat)
    requires Schedulable(req) && RoomForAll(req, calendar, frontier)
    requires Dag(req.tasks, req.dependencies).IsTopologicalOrder(order) && k <= |order|
    ensures 0 <= WeightOf(order[..k], TurnWeights(req))
    ensures Ahead(calendar, frontier, WeightOf(order[..k], TurnWeights(req))) <= req.horizonStart + HORIZON_DAYS
    ensures var st := RunOrder(req, MakeTeam(req.people, calendar, req.dayOverrides),
                               Dag(req.tasks, req.dependencies).edges, order[..k]);
            st.dumps == [] && Behind(st, Ahead(calendar, frontier, WeightOf(order[..k], TurnWeights(req))))
  {
    hide Step, Ahead, Dag, PrePlaced, TurnDays, Behind;
    var g, w := Dag(req.tasks, req.dependencies), TurnWeights(req);
    var team := MakeTeam(req.people, calendar, req.dayOverrides);
    WithinTotal(req, calendar, order, frontier, k);
    if k == 0 {
      PrePlacedBehind(req.tasks, req.existing, frontier);
      NoDumpsBefore(req.tasks, req.existing);
      AheadNone(calendar, frontier);
    } else {
      var id := order[k - 1];
      assert order[..k][..k - 1] == order[..k - 1] && id in order;
      RunFits(req, calendar, order, frontier, k - 1);
      var before := WeightOf(order[..k - 1], w);
      AheadAdds(calendar, frontier, before, TurnDays(req, g.edges, id));
      StepFits(req, calendar, g.edges, RunOrder(req, team, g.edges, order[..k - 1]), id, Ahead(calendar, frontier, before));
    }
  }

  lemma AheadNone(calendar: WeekendCalendar, day: Date)
    ensures Ahead(calendar, day, 0) == day
  {
  }

  lemma WithinTotal(req: PlanRequest, calendar: WeekendCalendar, order: seq<Id>, frontier: Date, k: nat)
    requires RoomForAll(req, calendar, frontier)
    requires Dag(req.tasks, req.dependencies).IsTopologicalOrder(order) && k <= |order|
    ensures 0 <= WeightOf(order[..k], TurnWeights(req))
    ensures Ahead(calendar, frontier, WeightOf(order[..k], TurnWeights(req))) <= req.horizonStart + HORIZON_DAYS
  {
    var g, w := Dag(req.tasks, req.dependencies), TurnWeights(req);
    WeightsNonNegative(req);
    DagFaithful(req.tasks, req.dependencies);
    WeightSameSet(order, g.nodes, w);
    WeightPrefix(order, w, k);
    AheadMonotone(calendar, frontier, WeightOf(order[..k], w), WeightOf(order, w));
  }

  // What follows ------------------------------------------------------------------------

  /** A request with room for all its tasks is planned without a dump, whatever the order. */
  lemma RoomNothingDumped(req: PlanRequest, calendar: WeekendCalendar, order: seq<Id>, plan: PlanResult, frontier: Date)
    requires Schedulable(req) && RoomForAll(req, calendar, frontier) && IsPlanAlong(req, calendar, order, plan)
    ensures RunOrder(req, MakeTeam(req.people, calendar, req.dayOverrides),
                     Dag(req.tasks, req.dependencies).edges, order).dumps == []
  {
    assert order[..|order|] == order;
    RunFits(req, calendar, order, frontier, |order|);
  }

  /** So it has no overload, unless the load it starts with has one. */
  lemma RoomNoOverload(req: PlanRequest, calendar: WeekendCalendar, plan: PlanResult, frontier: Date)
    requires Schedulable(req) && RoomForAll(req, calendar, frontier) && IsPlan(req, calendar, plan)
    requires DistinctTasks(req.tasks) && DistinctPeople(req) && NonNegativeDurations(req.tasks)
    requires forall p, d :: HoursOn(PrePlaced(req.tasks, req.existing).ledger, p, d)
                            <= MakeTeam(req.people, calendar, req.dayOverrides).BaseCapacity(p, d)
    ensures forall p, d :: !Flagged(plan, p, d)
  {
    var order :| IsPlanAlong(req, calendar, order, plan);
    RoomNothingDumped(req, calendar, order, plan, frontier);
    NoDumpNoOverload(req, calendar, order, plan);
  }

  /** The choice at a task's turn, whether or not it was placed before. */
  lemma TurnClean(req: PlanRequest, calendar: WeekendCalendar, order: seq<Id>, frontier: Date, k: nat)
    requires Schedulable(req) && RoomForAll(req, calendar, frontier)
    requires Dag(req.tasks, req.dependencies).IsTopologicalOrder(order) && k < |order|
    requires TaskById(req.tasks, order[k]).Some?
    ensures var team := MakeTeam(req.people, calendar, req.dayOverrides);
            var edges := Dag(req.tasks, req.dependencies).edges;
            SplitsCleanly(req, team, edges, RunOrder(req, team, edges, order[..k]), TaskById(req.tasks, order[k]).value)
  {
    hide ChoiceFor, RunOrder, Dag, Ahead, Behind, MakeTeam, OwnDays, LongestWait;
    var g, w := Dag(req.tasks, req.dependencies), TurnWeights(req);
    var team := MakeTeam(req.people, calendar, req.dayOverrides);
    var task := TaskById(req.tasks, order[k]).value;
    TaskByIdIsTask(req.tasks, order[k]);
    RunFits(req, calendar, order, frontier, k);
    WithinTotal(req, calendar, order, frontier, k + 1);
    assert order[..k + 1][..k] == order[..k] && order[k] in order;
    AheadAdds(calendar, frontier, WeightOf(order[..k], w), TurnDays(req, g.edges, order[k]));
    if req.people != [] && (task.isSplittable ==> 1 <= task.durationHours) {
      TurnFits(req, calendar, g.edges, RunOrder(req, team, g.edges, order[..k]), task,
               Ahead(calendar, frontier, WeightOf(order[..k], w)));
    }
  }

  lemma RoomSplitsFit(req: PlanRequest, calendar: WeekendCalendar, order: seq<Id>, frontier: Date)
    requires Schedulable(req) && RoomForAll(req, calendar, frontier)
    requires Dag(req.tasks, req.dependencies).IsTopologicalOrder(order)
    ensures LongSplitsFit(req, MakeTeam(req.people, calendar, req.dayOverrides),
                          Dag(req.tasks, req.dependencies).edges, order)
  {
    hide SplitsCleanly, RunOrder, Dag, RoomForAll;
    forall k | 0 <= k < |order| && TaskById(req.tasks, order[k]).Some?
      ensures SplitsCleanly(req, MakeTeam(req.people, calendar, req.dayOverrides), Dag(req.tasks, req.dependencies).edges,
                            RunOrder(req, MakeTeam(req.people, calendar, req.dayOverrides),
                                     Dag(req.tasks, req.dependencies).edges, order[..k]),
                            TaskById(req.tasks, order[k]).value)
    {
      TurnClean(req, calendar, order, frontier, k);
    }
  }

  /** On an even team with room for all tasks the critical path bounds every plan, and a deadline
      before it is always reported missed: all conditions are on the request. */
  lemma RoomBound(req: PlanRequest, calendar: WeekendCalendar, plan: PlanResult, frontier: Date, m: nat)
    requires Schedulable(req) && IsPlan(req, calendar, plan) && RoomForAll(req, calendar, frontier)
    requires EvenTeam(req) && OneDayTasksFit(req)
    requires DistinctTasks(req.tasks) && DistinctPeople(req) && NonNegativeDurations(req.tasks)
    requires NonNegativeHours(req.existing)
    requires req.tasks != [] && AllTasks(req) && IsLongest(req, Dag(req.tasks, req.dependencies), m)
    ensures plan.endDate.Some? && ChainEnd(calendar, req.horizonStart, m) <= plan.endDate.value
    ensures req.deadline.Some? && req.deadline.value < ChainEnd(calendar, req.horizonStart, m) ==>
              MissesDeadline(plan)
  {
    var order :| IsPlanAlong(req, calendar, order, plan);
    RoomSplitsFit(req, calendar, order, frontier);
    EvenTeamBound(req, calendar, order, plan, m);
  }
}
