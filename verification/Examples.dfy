/** Concrete cases that mark the limits of the general results: tasks dumped although somebody has
    room, and confirms that book a person twice. */
module Examples {
  import opened Wrappers
  import opened Calendar
  import opened Models
  import opened Capacity
  import opened Allocators
  import opened Solver
  import opened Shapes
  import opened Plans
  import opened Overloads
  import opened Dumps
  import opened Optimality
  import opened SingleTask
  import opened Store
  import opened Booking

  /** A calendar without holidays; day 1 is a Monday. */
  const PLAIN := WeekendCalendar({})

  const WORKER := Person(1, "A", 8)

  function WorkTask(id: Id, hours: int, allowed: seq<Id>, split: bool): Task {
    Task(id, "T", hours, allowed, None, split, NoPair, false, NotDone, FromTemplate, None, None, None)
  }

  function Request(people: seq<Person>, task: Task, existing: seq<DayAllocation>): PlanRequest {
    PlanRequest(people, [task], [], 1, [], existing, None)
  }

  lemma MondayIsFirst()
    ensures PLAIN.FirstFrom(1) == 1 && PLAIN.IsWorkingDay(1) && PLAIN.IsWorkingDay(2)
  {
  }

  lemma TeamOfOne(p: Person)
    ensures MakeTeam([p], PLAIN, []) == Team(map[p.id := p.capacityHours], PLAIN, map[])
    ensures PersonIds([p]) == [p.id]
  {
    assert [p][..0] == [];
    assert CapacityMap([p]) == map[][p.id := p.capacityHours];
  }

  lemma TeamOfTwo(p: Person, q: Person)
    requires p.id != q.id
    ensures MakeTeam([p, q], PLAIN, []) ==
            Team(map[p.id := p.capacityHours, q.id := q.capacityHours], PLAIN, map[])
    ensures PersonIds([p, q]) == [p.id, q.id]
  {
    assert [p, q][..1] == [p] && [p][..0] == [];
    assert CapacityMap([p]) == map[][p.id := p.capacityHours];
  }

  lemma EveryoneAllowed(people: seq<Person>, task: Task)
    requires task.allowed != [] && forall p :: p in task.allowed ==> p in PersonIds(people)
    ensures Eligible(people, task) == task.allowed
  {
    OnTeamAll(task.allowed, PersonIds(people));
  }

  lemma {:induction false} OnTeamAll(allowed: seq<Id>, team: seq<Id>)
    requires forall p :: p in allowed ==> p in team
    ensures OnTeam(allowed, team) == allowed
  {
    if allowed != [] {
      assert allowed == [allowed[0]] + allowed[1..];
      OnTeamAll(allowed[1..], team);
    }
  }

  // A dump that wins the race ---------------------------------------------------------

  const HALF_DAYS := Person(1, "A", 4)

  const FULL_DAYS := Person(2, "B", 8)

  const BUSY_MONDAY := [DayAllocation(2, 1, 8)]

  const UNEVEN := Team(map[1 := 4, 2 := 8], PLAIN, map[])

  function WholeDay(): Task {
    WorkTask(10, 8, [2, 1], false)
  }

  lemma HalfDaysNeverFree()
    ensures NeverFree(UNEVEN, BUSY_MONDAY, 1, 8, 1, 366)
  {
    forall d ensures !AllFree(UNEVEN, BUSY_MONDAY, [1], 8, d) {
      HoursOnOne(BUSY_MONDAY[0], 1, d);
      assert UNEVEN.Remaining(BUSY_MONDAY, 1, d) <= 4 && 1 in [1];
    }
  }

  lemma BusyOnMonday()
    ensures !AllFree(UNEVEN, BUSY_MONDAY, [2], 8, 1)
    ensures AllFree(UNEVEN, BUSY_MONDAY, [2], 8, 2)
  {
    HoursOnOne(BUSY_MONDAY[0], 2, 1);
    HoursOnOne(BUSY_MONDAY[0], 2, 2);
    assert UNEVEN.Remaining(BUSY_MONDAY, 2, 1) == 0 && 2 in [2];
  }

  /** The race is won by the dump on the person who works half days. */
  lemma HalfDaysWin()
    ensures var c := BestChoice(UNEVEN, BUSY_MONDAY, WholeDay(), [2, 1], 1, 366);
            c.person == 1 && c.placement.start == c.placement.end == 1 && c.placement.Allocations() == [DayAllocation(1, 1, 8)]
  {
    hide BestChoice, AllFree, NeverFree, PlaceTogether, PlaceSplit, Placements, FirstFit;
    HalfDaysNeverFree();
    BusyOnMonday();
    MondayIsFirst();
    DumpWinsRace(UNEVEN, BUSY_MONDAY, WholeDay(), [2, 1], 1, 366);
    assert NeverFree(UNEVEN, BUSY_MONDAY, [2, 1][1], 8, 1, 366);
    var i := BestIsEarliest(UNEVEN, BUSY_MONDAY, WholeDay(), [2, 1], 1, 366);
    TogetherEarliest(UNEVEN, BUSY_MONDAY, [2], 8, 1, 366, 2);
    OnePersonStart(UNEVEN, BUSY_MONDAY, 1, 8, 1, 366);
    TogetherShape(UNEVEN, BUSY_MONDAY, [1], 8, 1, 366);
    assert OnDay([1], 1, 8) == [DayAllocation(1, 1, 8)];
  }

  /** One person works half days, the other is busy on Monday. The task needs a whole day, and the
      busy person, who has priority, has room on Tuesday; but the plan dumps it on the half-day
      person on Monday and reports the overload. */
  lemma DumpBeatsRoom() returns (plan: PlanResult)
    ensures var req := Request([HALF_DAYS, FULL_DAYS], WholeDay(), BUSY_MONDAY);
            && Schedulable(req) && IsPlan(req, PLAIN, plan)
            && AllFree(MakeTeam(req.people, PLAIN, []), req.existing, [2], 8, 2)
    ensures plan.assignments == [Assignment(10, 1, 1, 1, [DayAllocation(1, 1, 8)])]
    ensures Flagged(plan, 1, 1)
  {
    hide BestChoice, IsPlan, AllFree, FirstFit;
    var req := Request([HALF_DAYS, FULL_DAYS], WholeDay(), BUSY_MONDAY);
    TeamOfTwo(HALF_DAYS, FULL_DAYS);
    EveryoneAllowed(req.people, WholeDay());
    HalfDaysWin();
    BusyOnMonday();
    plan := SinglePlanExists(req, PLAIN, WholeDay());
    FlaggedAlone(req, plan, 1);
  }

  /** What one assignment puts on a day above the ceiling is flagged. */
  lemma FlaggedAlone(req: PlanRequest, plan: PlanResult, person: Id)
    requires Schedulable(req) && IsPlan(req, PLAIN, plan) && DistinctTasks(req.tasks)
    requires |plan.assignments| == 1 && |plan.assignments[0].allocations| == 1
    requires plan.assignments[0].allocations[0].person == person && plan.assignments[0].allocations[0].day == 1
    requires HoursOn(req.existing, person, 1) == 0
    requires var base := MakeTeam(req.people, PLAIN, req.dayOverrides).BaseCapacity(person, 1);
             0 <= base < plan.assignments[0].allocations[0].hours
    ensures Flagged(plan, person, 1)
  {
    hide IsPlan;
    var a := plan.assignments[0];
    assert plan.assignments == [a] && [a][..0] == [];
    assert Flatten(plan.assignments) == a.allocations;
    assert a.allocations == [a.allocations[0]];
    HoursOnOne(a.allocations[0], person, 1);
    HoursOnConcat(req.existing, a.allocations, person, 1);
    FlagsExact(req, PLAIN, plan, person, 1);
  }

  // A dump that wins against two free days -----------------------------------------------

  const ABSENT := Person(2, "B", 0)

  const WITH_ABSENT := Team(map[1 := 8, 2 := 0], PLAIN, map[])

  function TwoDays(): Task {
    WorkTask(10, 16, [1, 2], true)
  }

  lemma AbsentShort()
    ensures Short(WITH_ABSENT, [], 2, 16, 1, 366)
    ensures LastFree(WITH_ABSENT, [], 2, 1, 366) == 1
  {
    hide Supply, LastFree;
    forall d ensures FreeOn(WITH_ABSENT, [], 2, d) == 0 {
    }
    NoSupply(WITH_ABSENT, [], 2, 1, 367);
  }

  /** The free person can do it on Monday and Tuesday. */
  lemma WorkerSupplies()
    ensures Supply(WITH_ABSENT, [], 1, 1, 2) == 8
    ensures !Short(WITH_ABSENT, [], 1, 16, 1, 366)
  {
    MondayIsFirst();
    assert Supply(WITH_ABSENT, [], 1, 1, 1) == 0;
    assert Supply(WITH_ABSENT, [], 1, 1, 3) == 16;
    hide Supply;
    SupplyGrows(WITH_ABSENT, [], 1, 1, 3, 367);
  }

  lemma AbsentWins()
    ensures var c := BestChoice(WITH_ABSENT, [], TwoDays(), [1, 2], 1, 366);
            c.person == 2 && c.placement.start == c.placement.end == 1 && c.placement.Allocations() == [DayAllocation(2, 1, 16)]
  {
    hide BestChoice, PlaceSplit, Supply, Short, LastFree, FreeOn;
    MondayIsFirst();
    AbsentShort();
    WorkerSupplies();
    assert [1, 2][1] == 2;
    assert SlowerThan(WITH_ABSENT, [], TwoDays(), [1, 2], 1, 366, 1);
    SplitDumpWinsRace(WITH_ABSENT, [], TwoDays(), [1, 2], 1, 366);
    var i := BestIsEarliest(WITH_ABSENT, [], TwoDays(), [1, 2], 1, 366);
    SplitAgainst(WITH_ABSENT, [], 1, 16, 1, 366, 1);
    SplitAgainst(WITH_ABSENT, [], 2, 16, 1, 366, 1);
    AbsentDumped();
  }

  lemma AbsentDumped()
    ensures var p := PlaceSplit(WITH_ABSENT, [], 2, 16, 1, 366);
            p.start == p.end == 1 && p.Allocations() == [DayAllocation(2, 1, 16)]
  {
    hide Supply, Short, LastFree, Leftover, Spread;
    MondayIsFirst();
    AbsentShort();
    SplitAgainst(WITH_ABSENT, [], 2, 16, 1, 366, 1);
    DumpedSplitDates(WITH_ABSENT, [], 2, 16, 1, 366);
    NothingFitted();
  }

  lemma NothingFitted()
    ensures PlaceSplit(WITH_ABSENT, [], 2, 16, 1, 366).fitted == []
    ensures PlaceSplit(WITH_ABSENT, [], 2, 16, 1, 366).dumped == [DayAllocation(2, 1, 16)]
  {
    hide Supply, Leftover, Spread;
    MondayIsFirst();
    var s := Spread(WITH_ABSENT, [], 2, 16, 1, 366);
    assert s != [] ==> s[0] in s;
    assert forall d :: WITH_ABSENT.Remaining([], 2, d) <= 0;
    SpreadRange(WITH_ABSENT, [], 2, 16, 1, 366);
  }

  /** One person is free all year, the other has no capacity at all. The free one has priority and
      could do the two days of work on Monday and Tuesday; but the plan gives all sixteen hours to
      the absent one on Monday. */
  lemma DumpBeatsTwoDays() returns (plan: PlanResult)
    ensures var req := Request([WORKER, ABSENT], TwoDays(), []);
            && Schedulable(req) && IsPlan(req, PLAIN, plan)
            && !Short(MakeTeam(req.people, PLAIN, []), [], 1, 16, 1, 366)
    ensures plan.assignments == [Assignment(10, 2, 1, 1, [DayAllocation(2, 1, 16)])]
    ensures Flagged(plan, 2, 1)
  {
    hide BestChoice, IsPlan, Short, Supply;
    var req := Request([WORKER, ABSENT], TwoDays(), []);
    TeamOfTwo(WORKER, ABSENT);
    EveryoneAllowed(req.people, TwoDays());
    AbsentWins();
    WorkerSupplies();
    plan := SinglePlanExists(req, PLAIN, TwoDays());
    FlaggedAlone(req, plan, 2);
  }

  // Confirms that double-book -----------------------------------------------------------

  const SMALL_OFFICE := Office([WORKER], PLAIN)

  function OneDayRequest(id: Id): PlanRequest {
    Request([WORKER], WorkTask(id, 8, [1], false), [])
  }

  function OneDayPlan(id: Id): PlanResult {
    PlanResult([Assignment(id, 1, 1, 1, [DayAllocation(1, 1, 8)])], [], Some(1))
  }

  /** The worker's free Monday takes the task. */
  lemma OneDayChoice(id: Id)
    ensures PlaceTask([WORKER], Team(map[1 := 8], PLAIN, map[]), [], WorkTask(id, 8, [1], false), 1, 366) ==
            Choice(1, Placement([DayAllocation(1, 1, 8)], [], 1, 1))
  {
    var team := Team(map[1 := 8], PLAIN, map[]);
    TeamOfOne(WORKER);
    EveryoneAllowed([WORKER], WorkTask(id, 8, [1], false));
    assert AllFree(team, [], [1], 8, 1);
    assert OnDay([1], 1, 8) == [DayAllocation(1, 1, 8)];
  }

  lemma NothingOverloaded()
    ensures IsOverloadReport(Team(map[1 := 8], PLAIN, map[]), [DayAllocation(1, 1, 8)], [])
  {
    forall p, d ensures HoursOn([DayAllocation(1, 1, 8)], p, d) == if p == 1 && d == 1 then 8 else 0 {
      HoursOnOne(DayAllocation(1, 1, 8), p, d);
    }
  }

  lemma OneDayIsPlan(id: Id)
    ensures Schedulable(OneDayRequest(id)) && IsPlan(OneDayRequest(id), PLAIN, OneDayPlan(id))
  {
    hide PlaceTask, IsPlan, IsOverloadReport;
    var allocs := [DayAllocation(1, 1, 8)];
    TeamOfOne(WORKER);
    OneDayChoice(id);
    NothingOverloaded();
    assert [] + allocs == allocs && allocs + [] == allocs;
    SingleIsPlan(OneDayRequest(id), PLAIN, WorkTask(id, 8, [1], false), []);
    assert OverloadFlags([]) + DeadlineFlags(None, Some(1)) == [];
  }

  function ProposeOne(version: Id, id: Id): Event {
    Propose(version, version, OneDayRequest(id), OneDayPlan(id), [])
  }

  lemma CanPropose(b: Board, version: Id, id: Id)
    requires version !in b.tables.versions && b.tables.CommittedIds() == {}
    ensures Enabled(SMALL_OFFICE, b, ProposeOne(version, id))
  {
    hide IsPlan, PlaceTask;
    OneDayIsPlan(id);
  }

  /** Both proposals made, with the given statuses since. */
  function TwoPlans(first: VersionStatus, second: VersionStatus): Board {
    Board(Tables(map[1 := Version(1, first, OneDayPlan(10)), 2 := Version(2, second, OneDayPlan(20))],
                 map[1 := Planning, 2 := Planning], []),
          map[1 := {}, 2 := {}])
  }

  lemma CommitBoth()
    ensures TwoPlans(Proposed, Proposed).tables.CommittedIds() == {}
    ensures TwoPlans(Committed, Proposed).tables.CommittedIds() == {1}
    ensures TwoPlans(Committed, Committed).tables.CommittedIds() == {1, 2}
    ensures Do(TwoPlans(Proposed, Proposed), Commit(1)) == TwoPlans(Committed, Proposed)
    ensures Do(TwoPlans(Committed, Proposed), Commit(2)) == TwoPlans(Committed, Committed)
  {
  }

  lemma ProposeBoth() returns (events: seq<Event>)
    ensures Possible(SMALL_OFFICE, events) && After(events) == TwoPlans(Proposed, Proposed)
    ensures |events| == 2
  {
    var b := Do(BLANK, ProposeOne(1, 10));
    assert BLANK.tables.CommittedIds() == {} && b.tables.CommittedIds() == {};
    CanPropose(BLANK, 1, 10);
    CanPropose(b, 2, 20);
    hide Enabled, Do;
    assert After([]) == BLANK && Possible(SMALL_OFFICE, []);
    AfterOneMore(SMALL_OFFICE, [], ProposeOne(1, 10));
    events := [] + [ProposeOne(1, 10)];
    AfterOneMore(SMALL_OFFICE, events, ProposeOne(2, 20));
    events := events + [ProposeOne(2, 20)];
    BothProposed();
  }

  lemma BothProposed()
    ensures Do(Do(BLANK, ProposeOne(1, 10)), ProposeOne(2, 20)) == TwoPlans(Proposed, Proposed)
  {
    assert BLANK.tables.CommittedIds() == {} && Do(BLANK, ProposeOne(1, 10)).tables.CommittedIds() == {};
  }

  /** Two proposals solved against the same empty set of committed plans, confirmed one after the
      other: neither plan has an overload, the first confirm is in time, the second finds a plan
      committed since it was solved, and the worker is booked for sixteen hours on one day. */
  lemma StaleConfirmDoubleBooks() returns (events: seq<Event>)
    ensures Possible(SMALL_OFFICE, events) && SMALL_OFFICE.Team().NonNegative()
    ensures forall v :: v in After(events).tables.versions ==> ReportsNoOverload(After(events).tables.versions[v].payload)
    ensures SMALL_OFFICE.Team().BaseCapacity(1, 1) == 8
    ensures SumHours(Payloads(After(events).tables), After(events).tables.CommittedIds(), 1, 1) == 16
    ensures !StaysWithin(SMALL_OFFICE, events)
  {
    hide Do, SumHours;
    events := ProposeBoth();
    CommitBoth();
    TeamOfOne(WORKER);
    AfterOneMore(SMALL_OFFICE, events, Commit(1));
    events := events + [Commit(1)];
    AfterOneMore(SMALL_OFFICE, events, Commit(2));
    events := events + [Commit(2)];
    SixteenHours(TwoPlans(Committed, Committed));
    OverAtEnd(SMALL_OFFICE, events, 1, 1);
  }

  lemma OverAtEnd(office: Office, events: seq<Event>, person: Id, day: Date)
    requires office.Team().BaseCapacity(person, day) <
             SumHours(Payloads(After(events).tables), After(events).tables.CommittedIds(), person, day)
    ensures !StaysWithin(office, events)
  {
    assert events[..|events|] == events;
    assert !CommittedFit(office, After(events[..|events|]));
  }

  lemma SumOfTwo(payloads: map<Id, PlanResult>, person: Id, day: Date)
    ensures SumHours(payloads, {1, 2}, person, day) == HoursOf(payloads, 1, person, day) + HoursOf(payloads, 2, person, day)
    ensures SumHours(payloads, {2}, person, day) == HoursOf(payloads, 2, person, day)
    ensures SumHours(payloads, {1}, person, day) == HoursOf(payloads, 1, person, day)
  {
    hide HoursOf;
    SumRemove(payloads, {1, 2}, 1, person, day);
    SumRemove(payloads, {2}, 2, person, day);
    SumRemove(payloads, {1}, 1, person, day);
    assert {1, 2} - {1} == {2} && {2} - {2} == {} && {1} - {1} == {};
  }

  lemma SixteenHours(c: Board)
    requires c.tables.versions.Keys == {1, 2}
    requires c.tables.versions[1].payload == OneDayPlan(10) && c.tables.versions[2].payload == OneDayPlan(20)
    requires c.tables.CommittedIds() == {1, 2}
    ensures SumHours(Payloads(c.tables), c.tables.CommittedIds(), 1, 1) == 16
  {
    hide SumHours, HoursOn, Flatten;
    SumOfTwo(Payloads(c.tables), 1, 1);
    OneAllocation(OneDayPlan(10), 1, 1);
    OneAllocation(OneDayPlan(20), 1, 1);
  }

  lemma OneAllocation(plan: PlanResult, person: Id, day: Date)
    requires |plan.assignments| == 1 && |plan.assignments[0].allocations| == 1
    ensures var a := plan.assignments[0].allocations[0];
            HoursOn(Flatten(plan.assignments), person, day) == if a.person == person && a.day == day then a.hours else 0
  {
    var a := plan.assignments[0];
    assert plan.assignments == [a] && [a][..0] == [];
    assert Flatten(plan.assignments) == a.allocations && a.allocations == [a.allocations[0]];
    HoursOnOne(a.allocations[0], person, day);
  }

  // A plan that is overloaded itself -------------------------------------------------------

  function TooLong(): Task {
    WorkTask(10, 16, [1], false)
  }

  /** No day has room for it, so it is dumped on Monday. */
  lemma TooLongChoice()
    ensures var c := PlaceTask([WORKER], Team(map[1 := 8], PLAIN, map[]), [], TooLong(), 1, 366);
            c.person == 1 && c.placement.start == c.placement.end == 1 && c.placement.Allocations() == [DayAllocation(1, 1, 16)]
  {
    hide FirstFit, AllFree, PlaceTogether, NeverFree, BestChoice, Spread;
    var team := Team(map[1 := 8], PLAIN, map[]);
    TeamOfOne(WORKER);
    EveryoneAllowed([WORKER], TooLong());
    MondayIsFirst();
    TooLongNeverFree();
    BestIsCandidate(team, [], TooLong(), [1], 1, 366);
    OnePersonStart(team, [], 1, 16, 1, 366);
    TogetherShape(team, [], [1], 16, 1, 366);
    assert OnDay([1], 1, 16) == [DayAllocation(1, 1, 16)];
  }

  lemma TooLongNeverFree()
    ensures NeverFree(Team(map[1 := 8], PLAIN, map[]), [], 1, 16, 1, 366)
  {
    forall d ensures !AllFree(Team(map[1 := 8], PLAIN, map[]), [], [1], 16, d) {
      assert Team(map[1 := 8], PLAIN, map[]).Remaining([], 1, d) <= 8 && 1 in [1];
    }
  }

  lemma TooLongPlan() returns (plan: PlanResult)
    ensures Schedulable(Request([WORKER], TooLong(), [])) && IsPlan(Request([WORKER], TooLong(), []), PLAIN, plan)
    ensures plan.assignments == [Assignment(10, 1, 1, 1, [DayAllocation(1, 1, 16)])]
  {
    hide PlaceTask, IsPlan;
    TeamOfOne(WORKER);
    TooLongChoice();
    plan := SinglePlanExists(Request([WORKER], TooLong(), []), PLAIN, TooLong());
  }

  lemma CommitOnly(propose: Event)
    requires propose.Propose? && propose.version == 1
    ensures var c := Do(Do(BLANK, propose), Commit(1));
            c.tables.CommittedIds() == {1} && 1 in c.tables.versions && c.tables.versions[1].payload == propose.plan
    ensures Do(BLANK, propose).tables.CommittedIds() == {} && Do(BLANK, propose).basis == map[1 := {}]
  {
    assert BLANK.tables.CommittedIds() == {};
  }

  lemma CanProposeTooLong(propose: Event)
    requires propose.Propose? && propose.version == 1 && propose.req == Request([WORKER], TooLong(), [])
    requires propose.listed == [] && IsPlan(propose.req, PLAIN, propose.plan)
    ensures Enabled(SMALL_OFFICE, BLANK, propose)
  {
    hide IsPlan;
    assert BLANK.tables.CommittedIds() == {};
  }

  /** A plan with an overload, confirmed at once: no plan was committed since it was solved, and
      the worker is booked for sixteen hours on one day all the same. */
  lemma OverloadedConfirmOverbooks() returns (events: seq<Event>)
    ensures Possible(SMALL_OFFICE, events) && |events| == 2 && events[0].Propose? && events[1] == Commit(1)
    ensures After(events[..1]).tables.CommittedIds() == {} && After(events[..1]).basis == map[1 := {}]
    ensures SMALL_OFFICE.Team().BaseCapacity(1, 1) == 8
    ensures SumHours(Payloads(After(events).tables), After(events).tables.CommittedIds(), 1, 1) == 16
    ensures !StaysWithin(SMALL_OFFICE, events)
  {
    hide IsPlan, SumHours, Do, Flatten, Enabled;
    var plan := TooLongPlan();
    var propose := Propose(1, 1, Request([WORKER], TooLong(), []), plan, []);
    TeamOfOne(WORKER);
    CanProposeTooLong(propose);
    assert After([]) == BLANK && Possible(SMALL_OFFICE, []);
    AfterOneMore(SMALL_OFFICE, [], propose);
    var first := [] + [propose];
    CanAlwaysCommit(After(first));
    AfterOneMore(SMALL_OFFICE, first, Commit(1));
    events := first + [Commit(1)];
    assert events[..1] == first;
    CommitOnly(propose);
    OneAllocation(plan, 1, 1);
    SumOfTwo(Payloads(After(events).tables), 1, 1);
    OverAtEnd(SMALL_OFFICE, events, 1, 1);
  }

  lemma CanAlwaysCommit(b: Board)
    ensures Enabled(SMALL_OFFICE, b, Commit(1))
  {
  }
}
