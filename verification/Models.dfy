/** The solver's immutable records (src/planner/domain/models.py). */
module Models {
  import opened Wrappers
  import opened Calendar

  type Id = nat

  datatype LinkType = FS | SS
  datatype PairMode = NoPair | OptionalPair | RequiredPair
  datatype TaskStatus = NotDone | Done | Preliminary | Confirmed
  datatype TaskSource = BotFormed | FromTemplate

  datatype Person = Person(id: Id, name: string, capacityHours: int)

  datatype Task = Task(
    id: Id,
    name: string,
    durationHours: int,
    allowed: seq<Id>,
    projectId: Option<Id>,
    isSplittable: bool,
    pairMode: PairMode,
    isWindow: bool,
    status: TaskStatus,
    source: TaskSource,
    fixedStart: Option<Date>,
    fixedEnd: Option<Date>,
    fixedAssignee: Option<Id>)

  datatype Dependency = Dependency(taskId: Id, dependsOn: Id, link: LinkType, lag: int)

  datatype DayOverride = DayOverride(person: Id, day: Date, capacityHours: int)

  datatype DayAllocation = DayAllocation(person: Id, day: Date, hours: int)

  datatype Assignment = Assignment(
    taskId: Id,
    person: Id,
    startDate: Date,
    endDate: Date,
    allocations: seq<DayAllocation>)

  const OVERLOAD := "overload"
  const DEADLINE_MISSED := "deadline_missed"

  datatype RiskFlag = RiskFlag(
    kind: string,
    message: string,
    taskId: Option<Id>,
    person: Option<Id>,
    day: Option<Date>)

  /** The kinds differ already in their length. */
  lemma KindsDiffer()
    ensures OVERLOAD != DEADLINE_MISSED
  {
    assert |OVERLOAD| != |DEADLINE_MISSED|;
  }

  datatype PlanRequest = PlanRequest(
    people: seq<Person>,
    tasks: seq<Task>,
    dependencies: seq<Dependency>,
    horizonStart: Date,
    dayOverrides: seq<DayOverride>,
    existing: seq<DayAllocation>,
    deadline: Option<Date>)

  datatype PlanResult = PlanResult(
    assignments: seq<Assignment>,
    risks: seq<RiskFlag>,
    endDate: Option<Date>)
}
