/** What every placement has in common: dates on working days, hours conserved, and
    dates that enclose the work. */
module Shapes {
  import opened Calendar
  import opened Models
  import opened Capacity
  import opened Allocators
  import opened Solver

  /** The placement starts no earlier than asked, on a working day, and its dates are the first
      and the last day of its work, all of it on working days. */
  ghost predicate WellShaped(calendar: WeekendCalendar, p: Placement, earliest: Date) {
    && earliest <= p.start <= p.end
    && calendar.IsWorkingDay(p.start) && calendar.IsWorkingDay(p.end)
    && (forall a :: a in p.Allocations() ==> p.start <= a.day <= p.end && calendar.IsWorkingDay(a.day))
    && (p.Allocations() != [] ==>
          && (exists a :: a in p.Allocations() && a.day == p.start)
          && (exists a :: a in p.Allocations() && a.day == p.end))
  }

  // One day -----------------------------------------------------------------

  lemma {:induction false} OnDayTotal(people: seq<Id>, day: Date, hours: int)
    ensures TotalHours(OnDay(people, day, hours)) == |people| * hours
  {
    if people != [] {
      assert OnDay(people, day, hours)[..|people| - 1] == OnDay(people[..|people| - 1], day, hours);
      OnDayTotal(people[..|people| - 1], day, hours);
    }
  }

  lemma TogetherShape(team: Team, ledger: seq<DayAllocation>, people: seq<Id>, hours: int,
                      earliest: Date, limit: Date)
    requires people != []
    ensures var p := PlaceTogether(team, ledger, people, hours, earliest, limit);
            && WellShaped(team.calendar, p, earliest)
            && p.start == p.end
            && p.Allocations() == OnDay(people, p.start, hours)
            && TotalHours(p.Allocations()) == |people| * hours
  {
    var first := team.calendar.FirstFrom(earliest);
    var p := PlaceTogether(team, ledger, people, hours, earliest, limit);
    FirstFitLeast(team, ledger, people, hours, first, limit, p.start);
    assert p.Allocations() == OnDay(people, p.start, hours);
    assert p.Allocations()[0].day == p.start;
    OnDayTotal(people, p.start, hours);
  }

  // Several days ------------------------------------------------------------

  lemma {:induction false} SpreadRange(team: Team, ledger: seq<DayAllocation>, person: Id, want: int,
                                       day: Date, limit: Date)
    ensures forall a :: a in Spread(team, ledger, person, want, day, limit) ==>
              && day <= a.day <= limit && a.person == person
              && team.calendar.IsWorkingDay(a.day)
              && 0 < a.hours <= team.Remaining(ledger, person, a.day)
    decreases limit - day
  {
    if 0 < want && day <= limit {
      SpreadRange(team, ledger, person, want - Take(team, ledger, person, want, day), day + 1, limit);
    }
  }

  /** What is spread and what is dumped: one person's work, from the first working day on. */
  lemma SplitWork(team: Team, ledger: seq<DayAllocation>, person: Id, hours: int, earliest: Date, limit: Date)
    requires 1 <= hours
    ensures var allocs := PlaceSplit(team, ledger, person, hours, earliest, limit).Allocations();
            && (forall a :: a in allocs ==> a.person == person && 0 < a.hours)
            && (forall a :: a in allocs ==> team.calendar.IsWorkingDay(a.day) && team.calendar.FirstFrom(earliest) <= a.day)
            && TotalHours(allocs) == hours
  {
    var first := team.calendar.FirstFrom(earliest);
    var p := PlaceSplit(team, ledger, person, hours, earliest, limit);
    SpreadRange(team, ledger, person, hours, first, limit);
    SpreadTotal(team, ledger, person, hours, first, limit);
    TotalHoursConcat(p.fitted, p.dumped);
    if p.dumped != [] {
      assert TotalHours(p.dumped) == p.dumped[0].hours by {
        assert p.dumped[..0] == [];
      }
    }
  }

  lemma SplitShape(team: Team, ledger: seq<DayAllocation>, person: Id, hours: int, earliest: Date, limit: Date)
    requires 1 <= hours
    ensures var p := PlaceSplit(team, ledger, person, hours, earliest, limit);
            && WellShaped(team.calendar, p, earliest)
            && (forall a :: a in p.Allocations() ==> a.person == person && 0 < a.hours)
            && TotalHours(p.Allocations()) == hours
  {
    var p := PlaceSplit(team, ledger, person, hours, earliest, limit);
    SplitWork(team, ledger, person, hours, earliest, limit);
    EndsOfWork(p.Allocations());
  }

  lemma EndsOfWork(allocs: seq<DayAllocation>)
    requires allocs != []
    ensures MinDay(allocs) <= MaxDay(allocs)
    ensures exists a :: a in allocs && a.day == MinDay(allocs)
    ensures exists a :: a in allocs && a.day == MaxDay(allocs)
    ensures forall a :: a in allocs ==> MinDay(allocs) <= a.day <= MaxDay(allocs)
  {
    assert allocs[0] in allocs;
  }

  // Windows -----------------------------------------------------------------

  lemma WindowShape(calendar: WeekendCalendar, hours: int, earliest: Date)
    ensures var p := PlaceWindow(calendar, hours, earliest);
            && WellShaped(calendar, p, earliest)
            && p.Allocations() == []
            && calendar.BusinessDays(p.start, p.end + 1) == WindowSpan(hours)
  {
    var p := PlaceWindow(calendar, hours, earliest);
    calendar.NthCount(p.start, WindowSpan(hours));
  }

  // The race ----------------------------------------------------------------

  /** The race returns the placement of one of the candidates. */
  lemma BestIsCandidate(team: Team, ledger: seq<DayAllocation>, task: Task,
                        candidates: seq<Id>, earliest: Date, limit: Date)
    requires candidates != []
    requires task.isSplittable ==> 1 <= task.durationHours
    ensures var c := BestChoice(team, ledger, task, candidates, earliest, limit);
            c.person in candidates && c.placement == PlaceOne(team, ledger, task, c.person, earliest, limit)
  {
    var i := BestIndex(Placements(team, ledger, task, candidates, earliest, limit));
    PlacementAt(team, ledger, task, candidates, earliest, limit, i);
  }

  lemma {:induction false} OnTeamMembers(allowed: seq<Id>, team: seq<Id>)
    ensures forall p :: p in OnTeam(allowed, team) <==> p in allowed && p in team
  {
    if allowed != [] {
      assert allowed == [allowed[0]] + allowed[1..];
      OnTeamMembers(allowed[1..], team);
    }
  }

  /** Placed on two people at once. */
  predicate IsPair(people: seq<Person>, task: Task) {
    !task.isWindow && task.pairMode == RequiredPair && 2 <= |Eligible(people, task)|
  }

  /** A required pair works the full hours twice, a window none, anyone else once. */
  function PlacedHours(people: seq<Person>, task: Task): int {
    if task.isWindow then 0
    else if IsPair(people, task) then 2 * task.durationHours
    else task.durationHours
  }

  /** Who works an assignment: the first two eligible people, each the full hours of its one day,
      where the task is a pair, and the assignee alone otherwise. */
  ghost predicate WorkedBy(people: seq<Person>, task: Task, a: Assignment) {
    if IsPair(people, task) then
      && a.person == Eligible(people, task)[0]
      && a.allocations == OnDay(Eligible(people, task)[..2], a.startDate, task.durationHours)
    else forall x :: x in a.allocations ==> x.person == a.person
  }

  lemma OneShape(team: Team, ledger: seq<DayAllocation>, task: Task, person: Id, earliest: Date, limit: Date)
    requires task.isSplittable ==> 1 <= task.durationHours
    ensures var p := PlaceOne(team, ledger, task, person, earliest, limit);
            && WellShaped(team.calendar, p, earliest)
            && TotalHours(p.Allocations()) == task.durationHours
            && forall a :: a in p.Allocations() ==> a.person == person
  {
    if task.isSplittable {
      SplitShape(team, ledger, person, task.durationHours, earliest, limit);
    } else {
      TogetherShape(team, ledger, [person], task.durationHours, earliest, limit);
    }
  }

  /** Whatever way a task is placed: it is well shaped, conserves its hours, goes to an
      eligible person, and only eligible people work on it. */
  lemma PlaceTaskShape(people: seq<Person>, team: Team, ledger: seq<DayAllocation>, task: Task,
                       earliest: Date, limit: Date)
    requires people != []
    requires task.isSplittable ==> 1 <= task.durationHours
    ensures var c := PlaceTask(people, team, ledger, task, earliest, limit);
            && WellShaped(team.calendar, c.placement, earliest)
            && TotalHours(c.placement.Allocations()) == PlacedHours(people, task)
            && c.person in Eligible(people, task)
            && (forall a :: a in c.placement.Allocations() ==> a.person in Eligible(people, task))
  {
    var candidates := Eligible(people, task);
    if task.isWindow {
      WindowShape(team.calendar, task.durationHours, earliest);
    } else if task.pairMode == RequiredPair && 2 <= |candidates| {
      TogetherShape(team, ledger, [candidates[0], candidates[1]], task.durationHours, earliest, limit);
    } else {
      BestIsCandidate(team, ledger, task, candidates, earliest, limit);
      OneShape(team, ledger, task, BestChoice(team, ledger, task, candidates, earliest, limit).person, earliest, limit);
    }
  }

  lemma PlaceTaskWorkers(people: seq<Person>, team: Team, ledger: seq<DayAllocation>, task: Task,
                         earliest: Date, limit: Date)
    requires people != []
    requires task.isSplittable ==> 1 <= task.durationHours
    ensures WorkedBy(people, task, ToAssignment(task.id, PlaceTask(people, team, ledger, task, earliest, limit)))
  {
    hide PlaceSplit;
    var candidates := Eligible(people, task);
    if task.isWindow {
    } else if IsPair(people, task) {
      assert candidates[..2] == [candidates[0], candidates[1]];
      TogetherShape(team, ledger, [candidates[0], candidates[1]], task.durationHours, earliest, limit);
    } else {
      BestIsCandidate(team, ledger, task, candidates, earliest, limit);
      OneShape(team, ledger, task, BestChoice(team, ledger, task, candidates, earliest, limit).person, earliest, limit);
    }
  }

  lemma PlaceTaskStart(people: seq<Person>, team: Team, ledger: seq<DayAllocation>, task: Task,
                       earliest: Date, limit: Date)
    requires people != []
    requires task.isSplittable ==> 1 <= task.durationHours
    ensures var p := PlaceTask(people, team, ledger, task, earliest, limit).placement;
            earliest <= p.start && team.calendar.IsWorkingDay(p.start)
  {
    PlaceTaskShape(people, team, ledger, task, earliest, limit);
  }
}
