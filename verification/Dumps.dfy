/** Where overloads come from: a placement that fits never lifts a cell above its ceiling, so
    every overload is the work of a dump or was there before. */
module Dumps {
  import opened Calendar
  import opened Models
  import opened Capacity
  import opened Graph
  import opened Allocators
  import opened Solver
  import opened Shapes
  import opened Plans
  import opened Overloads

  /** Nobody is listed twice for a task, and nobody is on the team twice. */
  ghost predicate DistinctPeople(req: PlanRequest) {
    && Distinct(PersonIds(req.people))
    && forall t :: t in req.tasks ==> Distinct(t.allowed)
  }

  ghost predicate NonNegativeDurations(tasks: seq<Task>) {
    forall t :: t in tasks ==> 0 <= t.durationHours
  }

  lemma {:induction false} OnTeamDistinct(allowed: seq<Id>, team: seq<Id>)
    requires Distinct(allowed)
    ensures Distinct(OnTeam(allowed, team))
  {
    if allowed != [] {
      OnTeamDistinct(allowed[1..], team);
      OnTeamMembers(allowed[1..], team);
    }
  }

  // Fitting placements ------------------------------------------------------

  /** The fitted part of a placement stays under the ceiling wherever it adds hours. */
  ghost predicate FitsUnder(team: Team, ledger: seq<DayAllocation>, p: Placement) {
    forall person, day :: 0 != HoursOn(p.fitted, person, day) ==>
      HoursOn(ledger, person, day) + HoursOn(p.fitted, person, day) <= team.BaseCapacity(person, day)
  }

  lemma {:induction false} HoursOnDay(people: seq<Id>, day: Date, hours: int, person: Id, on: Date)
    requires Distinct(people)
    ensures HoursOn(OnDay(people, day, hours), person, on) == if on == day && person in people then hours else 0
  {
    var allocs := OnDay(people, day, hours);
    if people != [] {
      var init, last := people[..|people| - 1], people[|people| - 1];
      assert people == init + [last];
      assert allocs[..|people| - 1] == OnDay(init, day, hours);
      HoursOnDay(init, day, hours, person, on);
    }
  }

  lemma TogetherFits(team: Team, ledger: seq<DayAllocation>, people: seq<Id>, hours: int,
                     earliest: Date, limit: Date)
    requires Distinct(people)
    ensures FitsUnder(team, ledger, PlaceTogether(team, ledger, people, hours, earliest, limit))
  {
    var first := team.calendar.FirstFrom(earliest);
    var p := PlaceTogether(team, ledger, people, hours, earliest, limit);
    FirstFitLeast(team, ledger, people, hours, first, limit, p.start);
    forall person, day
      ensures HoursOn(p.fitted, person, day) ==
              if p.fitted != [] && day == p.start && person in people then hours else 0
    {
      HoursOnDay(people, p.start, hours, person, day);
    }
  }

  /** On each day the spread takes no more than what was free. */
  lemma {:induction false} SpreadOn(team: Team, ledger: seq<DayAllocation>, person: Id, want: int,
                                    day: Date, limit: Date, on: Date)
    ensures var h := HoursOn(Spread(team, ledger, person, want, day, limit), person, on);
            && 0 <= h
            && (on < day ==> h == 0)
            && (0 < h ==> team.calendar.IsWorkingDay(on) && h <= team.Remaining(ledger, person, on))
    decreases limit - day
  {
    if 0 < want && day <= limit {
      var take := Take(team, ledger, person, want, day);
      var a := DayAllocation(person, day, take);
      var rest := Spread(team, ledger, person, want - take, day + 1, limit);
      SpreadOn(team, ledger, person, want - take, day + 1, limit, on);
      HoursOnConcat([a], rest, person, on);
      assert HoursOn([a], person, on) == if on == day then take else 0;
    }
  }

  lemma SplitFits(team: Team, ledger: seq<DayAllocation>, person: Id, hours: int, earliest: Date, limit: Date)
    requires 1 <= hours
    ensures FitsUnder(team, ledger, PlaceSplit(team, ledger, person, hours, earliest, limit))
  {
    var first := team.calendar.FirstFrom(earliest);
    var p := PlaceSplit(team, ledger, person, hours, earliest, limit);
    SpreadRange(team, ledger, person, hours, first, limit);
    forall q, day | 0 != HoursOn(p.fitted, q, day)
      ensures HoursOn(ledger, q, day) + HoursOn(p.fitted, q, day) <= team.BaseCapacity(q, day)
    {
      if q != person {
        HoursOnAbsent(p.fitted, q, day);
      }
      SpreadOn(team, ledger, person, hours, first, limit, day);
    }
  }

  lemma PlaceTaskFits(req: PlanRequest, team: Team, ledger: seq<DayAllocation>, task: Task,
                      earliest: Date, limit: Date)
    requires req.people != [] && task in req.tasks && DistinctPeople(req)
    requires task.isSplittable ==> 1 <= task.durationHours
    ensures FitsUnder(team, ledger, PlaceTask(req.people, team, ledger, task, earliest, limit).placement)
  {
    var candidates := Eligible(req.people, task);
    OnTeamDistinct(task.allowed, PersonIds(req.people));
    if task.isWindow {
    } else if task.pairMode == RequiredPair && 2 <= |candidates| {
      TogetherFits(team, ledger, [candidates[0], candidates[1]], task.durationHours, earliest, limit);
    } else {
      BestIsCandidate(team, ledger, task, candidates, earliest, limit);
      var person := BestChoice(team, ledger, task, candidates, earliest, limit).person;
      if task.isSplittable {
        SplitFits(team, ledger, person, task.durationHours, earliest, limit);
      } else {
        TogetherFits(team, ledger, [person], task.durationHours, earliest, limit);
      }
    }
  }

  lemma OneDumpsNonNegative(team: Team, ledger: seq<DayAllocation>, task: Task, person: Id,
                            earliest: Date, limit: Date)
    requires 0 <= task.durationHours
    requires task.isSplittable ==> 1 <= task.durationHours
    ensures NonNegativeHours(PlaceOne(team, ledger, task, person, earliest, limit).dumped)
  {
  }

  /** Dumped hours are never negative. */
  lemma DumpsNonNegative(people: seq<Person>, team: Team, ledger: seq<DayAllocation>, task: Task,
                         earliest: Date, limit: Date)
    requires people != [] && 0 <= task.durationHours
    requires task.isSplittable ==> 1 <= task.durationHours
    ensures NonNegativeHours(PlaceTask(people, team, ledger, task, earliest, limit).placement.dumped)
  {
    var candidates := Eligible(people, task);
    if !task.isWindow && !(task.pairMode == RequiredPair && 2 <= |candidates|) {
      BestIsCandidate(team, ledger, task, candidates, earliest, limit);
      var person := BestChoice(team, ledger, task, candidates, earliest, limit).person;
      OneDumpsNonNegative(team, ledger, task, person, earliest, limit);
    }
  }

  // Attribution ---------------------------------------------------------------

  ghost function Ceiling(team: Team, initial: seq<DayAllocation>, person: Id, day: Date): int {
    var base, load := team.BaseCapacity(person, day), HoursOn(initial, person, day);
    if base < load then load else base
  }

  /** Recording a placement that fits keeps the use of a cell within the bound. */
  lemma RecordBound(team: Team, initial: seq<DayAllocation>, st: Progress, p: Placement, person: Id, day: Date)
    requires FitsUnder(team, st.ledger, p)
    requires NonNegativeHours(st.dumps) && NonNegativeHours(p.dumped)
    requires HoursOn(st.ledger, person, day) <= Ceiling(team, initial, person, day) + HoursOn(st.dumps, person, day)
    ensures NonNegativeHours(st.dumps + p.dumped)
    ensures HoursOn(st.ledger + p.Allocations(), person, day) <=
            Ceiling(team, initial, person, day) + HoursOn(st.dumps + p.dumped, person, day)
  {
    HoursOnConcat(st.ledger, p.Allocations(), person, day);
    HoursOnConcat(p.fitted, p.dumped, person, day);
    HoursOnConcat(st.dumps, p.dumped, person, day);
    HoursOnNonNegative(st.dumps, person, day);
    HoursOnNonNegative(p.dumped, person, day);
  }

  /** The use of a cell never exceeds its capacity, or the load it started with where that was
      more, by anything but the hours dumped on it. */
  lemma {:induction false} UseBound(req: PlanRequest, team: Team, edges: seq<Edge>, order: seq<Id>,
                                    person: Id, day: Date)
    requires Schedulable(req) && DistinctPeople(req) && NonNegativeDurations(req.tasks)
    ensures var st := RunOrder(req, team, edges, order);
            var initial := PrePlaced(req.tasks, req.existing).ledger;
            && NonNegativeHours(st.dumps)
            && HoursOn(st.ledger, person, day) <= Ceiling(team, initial, person, day) + HoursOn(st.dumps, person, day)
  {
    hide PlaceTask, EarliestStart, PrePlaced;
    if order == [] {
      NoDumpsBefore(req.tasks, req.existing);
    } else {
      var init, id := order[..|order| - 1], order[|order| - 1];
      UseBound(req, team, edges, init, person, day);
      var st := RunOrder(req, team, edges, init);
      TaskByIdIsTask(req.tasks, id);
      var found := TaskById(req.tasks, id);
      if found.Some? && id !in st.placed {
        var c := ChoiceFor(req, team, edges, st, found.value);
        var est := EarliestStart(team.calendar, edges, found.value.id, st.placed, req.horizonStart);
        PlaceTaskFits(req, team, st.ledger, found.value, est, req.horizonStart + HORIZON_DAYS);
        DumpsNonNegative(req.people, team, st.ledger, found.value, est, req.horizonStart + HORIZON_DAYS);
        RecordBound(team, PrePlaced(req.tasks, req.existing).ledger, st, c.placement, person, day);
      }
    }
  }

  lemma {:induction false} NoDumpsBefore(tasks: seq<Task>, existing: seq<DayAllocation>)
    ensures PrePlaced(tasks, existing).dumps == []
  {
    if tasks != [] {
      NoDumpsBefore(tasks[..|tasks| - 1], existing);
    }
  }

  /** A flagged cell was over its capacity from the start, or hours were dumped on it. */
  lemma {:induction false} OverloadAttribution(req: PlanRequest, calendar: WeekendCalendar, order: seq<Id>, plan: PlanResult,
                                               person: Id, day: Date)
    requires Schedulable(req) && IsPlanAlong(req, calendar, order, plan)
    requires DistinctTasks(req.tasks) && DistinctPeople(req) && NonNegativeDurations(req.tasks)
    requires Flagged(plan, person, day)
    ensures var team := MakeTeam(req.people, calendar, req.dayOverrides);
            var st := RunOrder(req, team, Dag(req.tasks, req.dependencies).edges, order);
            || team.BaseCapacity(person, day) < HoursOn(PrePlaced(req.tasks, req.existing).ledger, person, day)
            || exists a :: a in st.dumps && a.person == person && a.day == day && 0 < a.hours
  {
    var team := MakeTeam(req.people, calendar, req.dayOverrides);
    var edges := Dag(req.tasks, req.dependencies).edges;
    FlagsExact(req, calendar, plan, person, day);
    IndexIsSum(req, calendar, order, plan, person, day);
    UseBound(req, team, edges, order, person, day);
    PositiveEntry(RunOrder(req, team, edges, order).dumps, person, day);
  }

  lemma {:induction false} PositiveEntry(ledger: seq<DayAllocation>, person: Id, day: Date)
    ensures 0 < HoursOn(ledger, person, day) ==>
              exists a :: a in ledger && a.person == person && a.day == day && 0 < a.hours
  {
    if ledger != [] {
      PositiveEntry(ledger[..|ledger| - 1], person, day);
      assert ledger == ledger[..|ledger| - 1] + [ledger[|ledger| - 1]];
    }
  }

  /** Where the initial load fits everywhere and no task is dumped, the plan has no overload. */
  lemma {:induction false} NoDumpNoOverload(req: PlanRequest, calendar: WeekendCalendar, order: seq<Id>, plan: PlanResult)
    requires Schedulable(req) && IsPlanAlong(req, calendar, order, plan)
    requires DistinctTasks(req.tasks) && DistinctPeople(req) && NonNegativeDurations(req.tasks)
    requires var team := MakeTeam(req.people, calendar, req.dayOverrides);
             && (forall p, d :: HoursOn(PrePlaced(req.tasks, req.existing).ledger, p, d) <= team.BaseCapacity(p, d))
             && RunOrder(req, team, Dag(req.tasks, req.dependencies).edges, order).dumps == []
    ensures forall p, d :: !Flagged(plan, p, d)
  {
    forall p, d ensures !Flagged(plan, p, d) {
      if Flagged(plan, p, d) {
        OverloadAttribution(req, calendar, order, plan, p, d);
      }
    }
  }

  // When a placement is dumped ------------------------------------------------

  /** The hours a person has free on the working days of [a, b). */
  function Supply(team: Team, ledger: seq<DayAllocation>, person: Id, a: Date, b: Date): int
    decreases b - a
  {
    if b <= a then 0
    else Supply(team, ledger, person, a, b - 1) + FreeOn(team, ledger, person, b - 1)
  }

  function FreeOn(team: Team, ledger: seq<DayAllocation>, person: Id, day: Date): (free: int)
    ensures 0 <= free
  {
    var left := team.Remaining(ledger, person, day);
    if team.calendar.IsWorkingDay(day) && 0 < left then left else 0
  }

  lemma {:induction false} SupplyFront(team: Team, ledger: seq<DayAllocation>, person: Id, a: Date, b: Date)
    requires a < b
    ensures Supply(team, ledger, person, a, b) ==
            FreeOn(team, ledger, person, a) + Supply(team, ledger, person, a + 1, b)
    decreases b - a
  {
    if a + 1 < b {
      SupplyFront(team, ledger, person, a, b - 1);
    }
  }

  lemma {:induction false} SupplyNonNegative(team: Team, ledger: seq<DayAllocation>, person: Id, a: Date, b: Date)
    ensures 0 <= Supply(team, ledger, person, a, b)
    decreases b - a
  {
    if a < b {
      SupplyNonNegative(team, ledger, person, a, b - 1);
    }
  }

  /** What is left over is the part of the hours that the horizon cannot supply. */
  lemma {:induction false} LeftoverIsShortage(team: Team, ledger: seq<DayAllocation>, person: Id, want: int,
                                              day: Date, limit: Date)
    requires 0 <= want
    ensures var supply := Supply(team, ledger, person, day, limit + 1);
            Leftover(team, ledger, person, want, day, limit) == if supply < want then want - supply else 0
    decreases limit - day
  {
    hide Spread;
    SupplyNonNegative(team, ledger, person, day, limit + 1);
    if 0 < want && day <= limit {
      SupplyFront(team, ledger, person, day, limit + 1);
      SupplyNonNegative(team, ledger, person, day + 1, limit + 1);
      LeftoverIsShortage(team, ledger, person, want - Take(team, ledger, person, want, day), day + 1, limit);
    }
  }

  /** A single or paired placement is dumped exactly when no day of the horizon has everyone
      free, a split one exactly when the horizon cannot supply its hours. */
  lemma DumpedExactly(team: Team, ledger: seq<DayAllocation>, people: seq<Id>, hours: int,
                      earliest: Date, limit: Date)
    requires people != []
    ensures PlaceTogether(team, ledger, people, hours, earliest, limit).dumped != [] <==>
            forall d :: team.calendar.FirstFrom(earliest) <= d <= limit ==> !AllFree(team, ledger, people, hours, d)
    ensures 1 <= hours ==>
              (PlaceSplit(team, ledger, people[0], hours, earliest, limit).dumped != [] <==>
               Supply(team, ledger, people[0], team.calendar.FirstFrom(earliest), limit + 1) < hours)
  {
    var first := team.calendar.FirstFrom(earliest);
    FirstFitLeast(team, ledger, people, hours, first, limit, first);
    if 1 <= hours {
      LeftoverIsShortage(team, ledger, people[0], hours, first, limit);
    }
  }
}
