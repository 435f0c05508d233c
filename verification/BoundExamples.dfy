/** Why the lower bound needs its conditions: for each of them a request that meets all the others
    and has a plan that ends before the critical path. */
module BoundExamples {
  import opened Wrappers
  import opened Calendar
  import opened Models
  import opened Capacity
  import opened Graph
  import opened Allocators
  import opened Solver
  import opened Shapes
  import opened Plans
  import opened Dumps
  import opened Optimality
  import opened CriticalPath
  import opened LowerBound
  import opened Room
  import opened SingleTask
  import opened Examples

  datatype Clause = EndLinks | Unfixed | Windows | Norms | OneDay | LongSplits

  ghost predicate Holds(c: Clause, req: PlanRequest, order: seq<Id>)
    requires Schedulable(req)
  {
    match c
    case EndLinks => EndLinksOnly(req)
    case Unfixed => NothingFixed(req)
    case Windows => WindowsWithinNorm(req)
    case Norms => PeopleWithinNorm(req, PLAIN)
    case OneDay => OneDayTasksFit(req)
    case LongSplits => LongSplitsFit(req, MakeTeam(req.people, PLAIN, req.dayOverrides),
                                     Dag(req.tasks, req.dependencies).edges, order)
  }

  /** Only condition `c` is missing, and the plan ends before the critical path. */
  ghost predicate FallsShort(c: Clause, req: PlanRequest, order: seq<Id>, plan: PlanResult) {
    && Schedulable(req) && IsPlanAlong(req, PLAIN, order, plan)
    && DistinctTasks(req.tasks) && DistinctPeople(req) && NonNegativeDurations(req.tasks)
    && NonNegativeHours(req.existing) && req.tasks != [] && AllTasks(req)
    && (forall d: Clause :: d != c ==> Holds(d, req, order))
    && plan.endDate.Some?
    && forall m: nat :: IsLongest(req, Dag(req.tasks, req.dependencies), m) ==>
         plan.endDate.value < ChainEnd(PLAIN, req.horizonStart, m)
  }

  // One task for one person ------------------------------------------------------------

  function Solo(hours: int): seq<Person> {
    [Person(1, "A", hours)]
  }

  function SoloRequest(capacity: int, task: Task, overrides: seq<DayOverride>): PlanRequest {
    PlanRequest(Solo(capacity), [task], [], 1, overrides, [], None)
  }

  lemma SoloNorm(capacity: int, task: Task)
    requires task.allowed == [1]
    ensures CapacityMap(Solo(capacity)) == map[1 := capacity]
    ensures Eligible(Solo(capacity), task) == [1]
    ensures DayNorm(Solo(capacity), task) == if capacity < 1 then 1 else capacity
  {
    var p := Person(1, "A", capacity);
    TeamOfOne(p);
    EveryoneAllowed([p], task);
    assert Capacities([1][1..], map[1 := capacity]) == [];
    assert Capacities([1], map[1 := capacity]) == [capacity] + [];
  }

  lemma DurationAt(people: seq<Person>, task: Task, norm: int)
    requires DayNorm(people, task) == norm && 1 <= norm
    ensures DurationDays(people, task) == if (task.durationHours + norm - 1) / norm < 1 then 1
                                          else (task.durationHours + norm - 1) / norm
  {
  }

  /** What is true of every such request. */
  lemma SingleBasics(req: PlanRequest, task: Task)
    requires IsSingle(req, task) && 0 <= task.durationHours && req.existing == []
    requires DistinctPeople(req)
    ensures Schedulable(req) && DistinctTasks(req.tasks) && NonNegativeDurations(req.tasks) && AllTasks(req)
    ensures EndLinksOnly(req)
    ensures Dag(req.tasks, req.dependencies) == DiGraph([task.id], [])
  {
    SingleDag(task);
    assert req.tasks[0] == task;
  }

  /** Only the turn of the one task counts. */
  lemma SingleSplitsFit(req: PlanRequest, task: Task)
    requires IsSingle(req, task) && Schedulable(req) && req.existing == []
    requires IsLongSplit(req, task) ==> !IsFixed(task) && SingleChoice(req, PLAIN, task).placement.dumped == []
    ensures Holds(LongSplits, req, [task.id])
  {
    hide PlaceTask, MakeTeam, IsLongSplit;
    SingleDag(task);
    SingleStart(req, task);
    var team := MakeTeam(req.people, PLAIN, req.dayOverrides);
    assert [task.id][..0] == [];
    assert RunOrder(req, team, [], []) == PrePlaced(req.tasks, req.existing);
  }

  /** The plan is over by `last`, before the `days`-th working day. */
  lemma SingleFallsShort(c: Clause, req: PlanRequest, task: Task, days: nat, plan: PlanResult)
    requires IsSingle(req, task) && req.existing == [] && 0 <= task.durationHours && DistinctPeople(req)
    requires Schedulable(req) && IsPlanAlong(req, PLAIN, [task.id], plan)
    requires forall d: Clause :: d != c && !d.EndLinks? ==> Holds(d, req, [task.id])
    requires plan.endDate.Some? && 1 <= days <= DurationDays(req.people, task)
    requires plan.endDate.value < PLAIN.Nth(req.horizonStart, days) && !c.EndLinks?
    ensures FallsShort(c, req, [task.id], plan)
  {
    hide IsPlanAlong, DurationDays, IsLongest, Dag, WeekendCalendar.Nth, WeekendCalendar.FirstFrom, LongSplitsFit, OneDayTasksFit;
    hide PeopleWithinNorm, WindowsWithinNorm, NothingFixed;
    SingleBasics(req, task);
    forall m: nat | IsLongest(req, Dag(req.tasks, req.dependencies), m)
      ensures plan.endDate.value < ChainEnd(PLAIN, req.horizonStart, m)
    {
      SingleLongest(req, task, m);
      PLAIN.NthStrictlyMonotone(req.horizonStart, m, days);
    }
  }

  lemma SoloDistinct(capacity: int, task: Task, overrides: seq<DayOverride>)
    requires task.allowed == [1]
    ensures DistinctPeople(SoloRequest(capacity, task, overrides))
  {
    TeamOfOne(Person(1, "A", capacity));
  }

  /** Nobody works more than the norm where no override lifts the one person's capacity. */
  lemma SoloWithinNorm(capacity: int, task: Task)
    requires task.allowed == [1]
    ensures PeopleWithinNorm(SoloRequest(capacity, task, []), PLAIN)
  {
    SoloNorm(capacity, task);
    TeamOfOne(Person(1, "A", capacity));
    assert SoloRequest(capacity, task, []).tasks[0] == task;
  }

  /** A task that is neither external nor a pair goes to the one person. */
  lemma SoloChoice(capacity: int, task: Task, overrides: seq<DayOverride>)
    requires task.allowed == [1] && !task.isWindow && task.pairMode == NoPair
    requires task.isSplittable ==> 1 <= task.durationHours
    ensures var req := SoloRequest(capacity, task, overrides);
            SingleChoice(req, PLAIN, task).placement ==
            PlaceOne(MakeTeam(req.people, PLAIN, overrides), [], task, 1, 1, 366)
  {
    hide PlaceOne, BestChoice, MakeTeam;
    var req := SoloRequest(capacity, task, overrides);
    SoloNorm(capacity, task);
    BestIsCandidate(MakeTeam(req.people, PLAIN, overrides), [], task, [1], 1, 366);
  }

  // The witnesses ------------------------------------------------------------------------

  function WindowTask(): Task {
    WorkTask(10, 16, [1], false).(isWindow := true)
  }

  /** A window of two days counts as four where the norm is four hours. */
  lemma WindowsMatter() returns (plan: PlanResult)
    ensures FallsShort(Windows, SoloRequest(4, WindowTask(), []), [10], plan)
  {
    hide IsPlan, IsPlanAlong, FallsShort, WeekendCalendar.Nth, LongSplitsFit, PeopleWithinNorm;
    var task := WindowTask();
    var req := SoloRequest(4, task, []);
    SoloNorm(4, task);
    SoloDistinct(4, task, []);
    SoloWithinNorm(4, task);
    MondayIsFirst();
    plan := SinglePlanExists(req, PLAIN, task);
    SingleBasics(req, task);
    SingleSplitsFit(req, task);
    DurationAt(req.people, task, 4);
    PLAIN.NthStrictlyMonotone(1, 2, 4);
    assert req.tasks[0] == task;
    SingleFallsShort(Windows, req, task, 4, plan);
  }

  function LongDay(): Task {
    WorkTask(10, 16, [1], false)
  }

  /** A task of two days that cannot be split is dumped on one. */
  lemma OneDayMatters() returns (plan: PlanResult)
    ensures FallsShort(OneDay, SoloRequest(8, LongDay(), []), [10], plan)
  {
    hide IsPlan, IsPlanAlong, FallsShort, LongSplitsFit, PeopleWithinNorm, OneDayTasksFit, PlaceOne, NeverFree, SingleChoice;
    var task := LongDay();
    var req := SoloRequest(8, task, []);
    SoloNorm(8, task);
    SoloDistinct(8, task, []);
    SoloWithinNorm(8, task);
    plan := SinglePlanExists(req, PLAIN, task);
    LongDayEnds();
    SingleBasics(req, task);
    SingleSplitsFit(req, task);
    DurationAt(req.people, task, 8);
    SecondDay();
    SingleFallsShort(OneDay, req, task, 2, plan);
  }

  lemma SecondDay()
    ensures PLAIN.Nth(1, 1) == 1 && 1 < PLAIN.Nth(1, 2)
  {
    MondayIsFirst();
  }

  lemma LongDayEnds()
    ensures SingleChoice(SoloRequest(8, LongDay(), []), PLAIN, LongDay()).placement.end == 1
  {
    hide PlaceTogether, SingleChoice, NeverFree;
    TeamOfOne(Person(1, "A", 8));
    SoloChoice(8, LongDay(), []);
    MondayIsFirst();
    TooLongNeverFree();
    OnePersonStart(Team(map[1 := 8], PLAIN, map[]), [], 1, 16, 1, 366);
  }

  function LongSplit(hours: int): Task {
    WorkTask(10, hours, [1], true)
  }

  /** Sixteen days of one hour are dumped on one day where the only person is away. */
  lemma LongSplitsMatter() returns (plan: PlanResult)
    ensures FallsShort(LongSplits, SoloRequest(0, LongSplit(16), []), [10], plan)
  {
    hide IsPlan, IsPlanAlong, FallsShort, LongSplitsFit, PeopleWithinNorm, PlaceOne, SingleChoice;
    var task := LongSplit(16);
    var req := SoloRequest(0, task, []);
    SoloNorm(0, task);
    SoloDistinct(0, task, []);
    SoloWithinNorm(0, task);
    plan := SinglePlanExists(req, PLAIN, task);
    AwayEnds();
    SingleBasics(req, task);
    DurationAt(req.people, task, 1);
    assert req.tasks[0] == task;
    SecondDay();
    SingleFallsShort(LongSplits, req, task, 2, plan);
  }

  lemma AwayEnds()
    ensures SingleChoice(SoloRequest(0, LongSplit(16), []), PLAIN, LongSplit(16)).placement.end == 1
  {
    hide PlaceSplit, SingleChoice, Supply, LastFree;
    var team := Team(map[1 := 0], PLAIN, map[]);
    TeamOfOne(Person(1, "A", 0));
    SoloChoice(0, LongSplit(16), []);
    MondayIsFirst();
    forall d ensures FreeOn(team, [], 1, d) == 0 {
    }
    NoSupply(team, [], 1, 1, 367);
    SplitAgainst(team, [], 1, 16, 1, 366, 1);
    DumpedSplitDates(team, [], 1, 16, 1, 366);
    assert LastFree(team, [], 1, 1, 366) == 1;
  }

  function DoneTask(): Task {
    WorkTask(10, 4, [1], false).(status := Done, fixedStart := Some(-6), fixedAssignee := Some(1))
  }

  /** A task that was done on the Monday before the horizon is not done again. */
  lemma UnfixedMatters() returns (plan: PlanResult)
    ensures FallsShort(Unfixed, SoloRequest(8, DoneTask(), []), [10], plan)
  {
    hide IsPlan, IsPlanAlong, FallsShort, LongSplitsFit, PeopleWithinNorm, WeekendCalendar.Nth;
    var task := DoneTask();
    var req := SoloRequest(8, task, []);
    SoloNorm(8, task);
    SoloDistinct(8, task, []);
    SoloWithinNorm(8, task);
    plan := SinglePlanExists(req, PLAIN, task);
    SingleBasics(req, task);
    SingleSplitsFit(req, task);
    DurationAt(req.people, task, 8);
    assert req.tasks[0] == task;
    SingleFallsShort(Unfixed, req, task, 1, plan);
  }

  const LONG_MONDAY := [DayOverride(1, 1, 8)]

  /** Eight hours are two days of four, but an override allows eight on Monday. */
  lemma OverridesMatter() returns (plan: PlanResult)
    ensures FallsShort(Norms, SoloRequest(4, LongSplit(8), LONG_MONDAY), [10], plan)
  {
    hide IsPlan, IsPlanAlong, FallsShort, LongSplitsFit, PeopleWithinNorm, PlaceOne, SingleChoice;
    var task := LongSplit(8);
    var req := SoloRequest(4, task, LONG_MONDAY);
    SoloNorm(4, task);
    SoloDistinct(4, task, LONG_MONDAY);
    plan := SinglePlanExists(req, PLAIN, task);
    LongMondayEnds();
    SingleBasics(req, task);
    SingleSplitsFit(req, task);
    DurationAt(req.people, task, 4);
    assert req.tasks[0] == task;
    SecondDay();
    SingleFallsShort(Norms, req, task, 2, plan);
  }

  lemma LongMondayEnds()
    ensures var p := SingleChoice(SoloRequest(4, LongSplit(8), LONG_MONDAY), PLAIN, LongSplit(8)).placement;
            p.dumped == [] && p.end <= 1
  {
    hide PlaceSplit, SingleChoice;
    SoloChoice(4, LongSplit(8), LONG_MONDAY);
    MondayIsFirst();
    LongMondaySupplies();
    hide Supply;
    SplitDoneBy(MakeTeam(Solo(4), PLAIN, LONG_MONDAY), [], 1, 8, 1, 366, 1);
  }

  lemma LongMondaySupplies()
    ensures 8 <= Supply(MakeTeam(Solo(4), PLAIN, LONG_MONDAY), [], 1, 1, 2)
  {
    MondayIsFirst();
    var team := MakeTeam(Solo(4), PLAIN, LONG_MONDAY);
    assert LONG_MONDAY[..0] == [];
    assert OverrideMap(LONG_MONDAY) == map[][Cell(1, 1) := 8];
    assert Supply(team, [], 1, 1, 1) == 0;
  }

  // Uneven people ------------------------------------------------------------------------

  function SharedSplit(): Task {
    WorkTask(10, 8, [1, 2], true)
  }

  function UnevenRequest(): PlanRequest {
    PlanRequest([Person(1, "A", 8), Person(2, "B", 4)], [SharedSplit()], [], 1, [], [], None)
  }

  const EIGHT_AND_FOUR := Team(map[1 := 8, 2 := 4], PLAIN, map[])

  lemma UnevenNorm()
    ensures MakeTeam(UnevenRequest().people, PLAIN, []) == EIGHT_AND_FOUR
    ensures Eligible(UnevenRequest().people, SharedSplit()) == [1, 2] && DistinctPeople(UnevenRequest())
    ensures DayNorm(UnevenRequest().people, SharedSplit()) == 4
  {
    var people := UnevenRequest().people;
    TeamOfTwo(people[0], people[1]);
    EveryoneAllowed(people, SharedSplit());
    assert [1, 2][1..] == [2] && [2][1..] == [];
    var capacity := map[1 := 8, 2 := 4];
    assert Capacities([2], capacity) == [4] + [];
    assert Capacities([1, 2], capacity) == [8] + [4];
    assert [8, 4][1..] == [4];
  }

  lemma FullDaySupplies()
    ensures 8 <= Supply(EIGHT_AND_FOUR, [], 1, 1, 2)
  {
    MondayIsFirst();
    assert Supply(EIGHT_AND_FOUR, [], 1, 1, 1) == 0;
  }

  /** The full-time person wins with Monday alone. */
  lemma UnevenEnds()
    ensures var p := SingleChoice(UnevenRequest(), PLAIN, SharedSplit()).placement;
            p.dumped == [] && p.end <= 1
  {
    hide PlaceSplit, BestChoice, Supply, Placements, MakeTeam;
    MondayIsFirst();
    UnevenNorm();
    FullDaySupplies();
    SplitDoneBy(EIGHT_AND_FOUR, [], 1, 8, 1, 366, 1);
    SplitStartsFrom(EIGHT_AND_FOUR, [], 1, 8, 1, 366);
    SplitStartsFrom(EIGHT_AND_FOUR, [], 2, 8, 1, 366);
    SplitShape(EIGHT_AND_FOUR, [], 1, 8, 1, 366);
    SplitShape(EIGHT_AND_FOUR, [], 2, 8, 1, 366);
    PlacementAt(EIGHT_AND_FOUR, [], SharedSplit(), [1, 2], 1, 366, 0);
    var i := BestIsEarliest(EIGHT_AND_FOUR, [], SharedSplit(), [1, 2], 1, 366);
  }

  /** Eight hours are two days for the part-time person, but one for the other. */
  lemma CapacitiesMatter() returns (plan: PlanResult)
    ensures FallsShort(Norms, UnevenRequest(), [10], plan)
  {
    hide IsPlan, IsPlanAlong, FallsShort, LongSplitsFit, PeopleWithinNorm, SingleChoice, MakeTeam, DayNorm;
    var req, task := UnevenRequest(), SharedSplit();
    UnevenNorm();
    plan := SinglePlanExists(req, PLAIN, task);
    UnevenEnds();
    SingleBasics(req, task);
    SingleSplitsFit(req, task);
    DurationAt(req.people, task, 4);
    assert req.tasks[0] == task;
    SecondDay();
    SingleFallsShort(Norms, req, task, 2, plan);
  }

  // Links between starts -----------------------------------------------------------------

  function HalfTask(id: Id): Task {
    WorkTask(id, 4, [1], false)
  }

  /** Two half-day tasks that may start together. */
  function SideBySide(): PlanRequest {
    PlanRequest([WORKER], [HalfTask(1), HalfTask(2)], [Dependency(2, 1, SS, 0)], 1, [], [], None)
  }

  function HalfDay(id: Id): Assignment {
    Assignment(id, 1, 1, 1, [DayAllocation(1, 1, 4)])
  }

  function SideBySidePlan(): PlanResult {
    PlanResult([HalfDay(1), HalfDay(2)], [], Some(1))
  }

  lemma SideBySideDag()
    ensures Dag(SideBySide().tasks, SideBySide().dependencies) == DiGraph([1, 2], [Edge(1, 2, SS, 0)])
    ensures DiGraph([1, 2], [Edge(1, 2, SS, 0)]).IsTopologicalOrder([1, 2])
  {
    var tasks, deps := SideBySide().tasks, SideBySide().dependencies;
    assert tasks[..1] == [HalfTask(1)] && tasks[..1][..0] == [] && deps[..|deps| - 1] == [];
    assert TaskNodes(tasks[..1]) == AddNode(DiGraph([], []), 1);
    assert TaskNodes(tasks) == AddNode(DiGraph([1], []), 2);
    assert Dag(tasks, []) == DiGraph([1, 2], []);
  }

  /** As long as half of Monday is free, a half-day task goes there. */
  lemma HalfChoice(id: Id, ledger: seq<DayAllocation>)
    requires HoursOn(ledger, 1, 1) <= 4
    ensures PlaceTask([WORKER], Team(map[1 := 8], PLAIN, map[]), ledger, HalfTask(id), 1, 366) ==
            Choice(1, Placement([DayAllocation(1, 1, 4)], [], 1, 1))
  {
    var team := Team(map[1 := 8], PLAIN, map[]);
    assert PersonIds([WORKER]) == [1] && [1][1..] == [];
    assert Eligible([WORKER], HalfTask(id)) == [1];
    assert AllFree(team, ledger, [1], 4, 1);
    assert OnDay([1], 1, 4) == [DayAllocation(1, 1, 4)];
  }

  lemma SideBySideStart()
    ensures PrePlaced(SideBySide().tasks, []) == Progress(map[], [], [])
    ensures TaskById(SideBySide().tasks, 1) == Some(HalfTask(1))
    ensures TaskById(SideBySide().tasks, 2) == Some(HalfTask(2))
  {
    var tasks := SideBySide().tasks;
    assert tasks[..1] == [HalfTask(1)] && tasks[..1][..0] == [];
    assert PrePlaced(tasks[..1][..0], []) == Progress(map[], [], []);
    assert PrePlaced(tasks[..1], []) == Progress(map[], [], []);
  }

  lemma SideBySideRunnable()
    ensures HoursToSplit(SideBySide()) && SideBySide().people != []
  {
  }

  lemma StepPlaces(req: PlanRequest, team: Team, edges: seq<Edge>, st: Progress, task: Task, c: Choice)
    requires HoursToSplit(req) && req.people != [] && !task.isSplittable
    requires TaskById(req.tasks, task.id) == Some(task) && task.id !in st.placed
    requires c == PlaceTask(req.people, team, st.ledger, task,
                            EarliestStart(team.calendar, edges, task.id, st.placed, req.horizonStart),
                            req.horizonStart + HORIZON_DAYS)
    ensures Step(req, team, edges, st, task.id) == Record(st, task.id, c)
  {
    hide PlaceTask, EarliestStart;
  }

  lemma HalfStep(st: Progress, id: Id)
    requires id == 1 || id == 2
    requires HoursOn(st.ledger, 1, 1) <= 4 && st.dumps == [] && id !in st.placed
    requires EarliestStart(PLAIN, [Edge(1, 2, SS, 0)], id, st.placed, 1) == 1
    ensures HoursToSplit(SideBySide()) && SideBySide().people != []
    ensures Step(SideBySide(), Team(map[1 := 8], PLAIN, map[]), [Edge(1, 2, SS, 0)], st, id) ==
            Progress(st.placed[id := HalfDay(id)], st.ledger + [DayAllocation(1, 1, 4)], [])
  {
    hide Step, PlaceTask, EarliestStart, TaskById, HoursOn, HoursToSplit;
    SideBySideRunnable();
    SideBySideStart();
    HalfChoice(id, st.ledger);
    var c := Choice(1, Placement([DayAllocation(1, 1, 4)], [], 1, 1));
    StepPlaces(SideBySide(), Team(map[1 := 8], PLAIN, map[]), [Edge(1, 2, SS, 0)], st, HalfTask(id), c);
    assert [DayAllocation(1, 1, 4)] + [] == [DayAllocation(1, 1, 4)];
  }

  /** Neither task has to wait. */
  lemma SideBySideEarliest()
    ensures EarliestStart(PLAIN, [Edge(1, 2, SS, 0)], 1, map[], 1) == 1
    ensures EarliestStart(PLAIN, [Edge(1, 2, SS, 0)], 2, map[1 := HalfDay(1)], 1) == 1
  {
    var edges := [Edge(1, 2, SS, 0)];
    assert edges[..|edges| - 1] == [];
    assert LinkDate(PLAIN, edges[0], HalfDay(1)) == 1;
  }

  lemma SideBySideRun()
    ensures HoursToSplit(SideBySide())
    ensures RunOrder(SideBySide(), Team(map[1 := 8], PLAIN, map[]), [Edge(1, 2, SS, 0)], [1, 2]) ==
            Progress(map[1 := HalfDay(1), 2 := HalfDay(2)], [DayAllocation(1, 1, 4), DayAllocation(1, 1, 4)], [])
  {
    hide Step, PlaceTask, EarliestStart, TaskById, PrePlaced, HoursOn;
    var req, team, edges := SideBySide(), Team(map[1 := 8], PLAIN, map[]), [Edge(1, 2, SS, 0)];
    var one, two := [1], [1, 2];
    assert one[..|one| - 1] == [] && two[..|two| - 1] == one;
    SideBySideStart();
    SideBySideEarliest();
    var half := [DayAllocation(1, 1, 4)];
    HoursOnAbsent([], 1, 1);
    HoursOnOne(half[0], 1, 1);
    HalfStep(Progress(map[], [], []), 1);
    assert [] + half == half;
    assert RunOrder(req, team, edges, one) == Progress(map[1 := HalfDay(1)], half, []);
    HalfStep(Progress(map[1 := HalfDay(1)], half, []), 2);
    assert half + half == [DayAllocation(1, 1, 4), DayAllocation(1, 1, 4)];
  }

  lemma FullDayFits()
    ensures IsOverloadReport(Team(map[1 := 8], PLAIN, map[]), [DayAllocation(1, 1, 4), DayAllocation(1, 1, 4)], [])
  {
    var a := DayAllocation(1, 1, 4);
    assert [a] + [a] == [a, a];
    forall p, d ensures HoursOn([a, a], p, d) == if p == 1 && d == 1 then 8 else 0 {
      HoursOnConcat([a], [a], p, d);
      HoursOnOne(a, p, d);
    }
  }

  lemma SideBySideCollected()
    ensures Ordered([1, 2], map[1 := HalfDay(1), 2 := HalfDay(2)]) == SideBySidePlan().assignments
    ensures LatestEnd(SideBySidePlan().assignments) == Some(1)
  {
    var placed, list := map[1 := HalfDay(1), 2 := HalfDay(2)], SideBySidePlan().assignments;
    var one, two := [1], [1, 2];
    assert one[..|one| - 1] == [] && two[..|two| - 1] == one;
    assert Ordered(one, placed) == [HalfDay(1)];
    assert list[..1] == [HalfDay(1)] && list[..1][..0] == [];
  }

  lemma SideBySideIsPlan()
    ensures Schedulable(SideBySide()) && IsPlanAlong(SideBySide(), PLAIN, [1, 2], SideBySidePlan())
  {
    hide RunOrder, Ordered, LatestEnd, Dag, IsOverloadReport;
    SideBySideDag();
    TeamOfOne(WORKER);
    SideBySideRun();
    SideBySideCollected();
    FullDayFits();
    var report: seq<Overload> := [];
    assert SideBySidePlan().risks == OverloadFlags(report) + DeadlineFlags(None, Some(1));
    assert IsPlanAlong(SideBySide(), PLAIN, [1, 2], SideBySidePlan());
  }

  lemma ChainOfTwo()
    ensures DiGraph([1, 2], [Edge(1, 2, SS, 0)]).IsWalk([1, 2])
    ensures 2 <= Weight(SideBySide(), [1, 2])
  {
    var g, w := DiGraph([1, 2], [Edge(1, 2, SS, 0)]), [1, 2];
    assert g.Linked(1, 2) by {
      assert g.edges[0] in g.edges;
    }
    SideBySideStart();
    assert w[..1] == [1] && w[..1][..0] == [];
  }

  lemma SideBySideNorms()
    ensures PeopleWithinNorm(SideBySide(), PLAIN) && DistinctPeople(SideBySide())
    ensures OneDayTasksFit(SideBySide()) && NothingFixed(SideBySide()) && WindowsWithinNorm(SideBySide())
    ensures DistinctTasks(SideBySide().tasks) && NonNegativeDurations(SideBySide().tasks)
  {
    TeamOfOne(WORKER);
    EveryoneAllowed([WORKER], HalfTask(1));
    EveryoneAllowed([WORKER], HalfTask(2));
    assert Capacities([1][1..], map[1 := 8]) == [];
    assert Capacities([1], map[1 := 8]) == [8] + [];
  }

  lemma SideBySideRest()
    ensures Schedulable(SideBySide()) && AllTasks(SideBySide())
    ensures Holds(LongSplits, SideBySide(), [1, 2])
  {
    hide RunOrder, ChoiceFor, MakeTeam, Dag;
    SideBySideRunnable();
    SideBySideDag();
    SideBySideStart();
    var tasks := SideBySide().tasks;
    assert tasks[0].id == 1 && tasks[1].id == 2;
  }

  /** The critical path counts a link between starts like one that waits for the end. Two half-day
      tasks that may start together are a chain of two days, but the plan has one. */
  lemma LinksMatter()
    ensures FallsShort(EndLinks, SideBySide(), [1, 2], SideBySidePlan())
  {
    hide IsPlanAlong, PeopleWithinNorm, OneDayTasksFit, LongSplitsFit;
    SideBySideIsPlan();
    SideBySideNorms();
    SideBySideRest();
    forall m: nat | IsLongest(SideBySide(), Dag(SideBySide().tasks, SideBySide().dependencies), m)
      ensures 1 < ChainEnd(PLAIN, 1, m)
    {
      TwoDaysLong(m);
    }
  }

  lemma TwoDaysLong(m: nat)
    requires IsLongest(SideBySide(), Dag(SideBySide().tasks, SideBySide().dependencies), m)
    ensures 1 < ChainEnd(PLAIN, 1, m)
  {
    SideBySideDag();
    ChainOfTwo();
    SecondDay();
    PLAIN.NthStrictlyMonotone(1, 1, m);
  }
}
