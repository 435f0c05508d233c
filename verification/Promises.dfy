/** What a plan promises, in the terms of the request: who may do a task and who gets it, on which
    days, what is flagged and how it is worded. People, ceilings, days and numbers are spelled out
    here instead of being named by the functions that decide them. */
module Promises {
  import opened Wrappers
  import opened Calendar
  import opened Models
  import opened Capacity
  import opened Graph
  import opened Allocators
  import opened Solver
  import opened Shapes
  import opened Plans
  import opened Overloads
  import opened Dumps
  import opened Optimality
  import opened LowerBound
  import opened Text

  // Who may do a task -------------------------------------------------------------

  ghost predicate OnRoster(people: seq<Person>, q: Id) {
    exists p :: p in people && p.id == q
  }

  ghost predicate AnyAllowed(people: seq<Person>, task: Task) {
    exists q :: q in task.allowed && OnRoster(people, q)
  }

  /** Those allowed who are on the team; everybody where there is none. */
  ghost predicate MayDo(people: seq<Person>, task: Task, q: Id) {
    OnRoster(people, q) && (AnyAllowed(people, task) ==> q in task.allowed)
  }

  /** The list whose order is the priority. */
  ghost function Priority(people: seq<Person>, task: Task): seq<Id> {
    if AnyAllowed(people, task) then task.allowed
    else seq(|people|, i requires 0 <= i < |people| => people[i].id)
  }

  /** `q` stands in that list before `p` does. */
  ghost predicate Precedes(people: seq<Person>, task: Task, q: Id, p: Id) {
    exists i, j :: 0 <= i < j < |Priority(people, task)|
                   && Priority(people, task)[i] == q && Priority(people, task)[j] == p
                   && p !in Priority(people, task)[..j]
  }

  lemma OnRosterIds(people: seq<Person>, q: Id)
    ensures OnRoster(people, q) <==> q in PersonIds(people)
  {
    if p :| p in people && p.id == q {
      var i :| 0 <= i < |people| && people[i] == p;
      assert PersonIds(people)[i] == q;
    }
    if q in PersonIds(people) {
      var i :| 0 <= i < |people| && PersonIds(people)[i] == q;
      assert people[i] in people;
    }
  }

  /** `picked` are the entries of `list` at the positions `at`, in their order. */
  ghost predicate Picks(list: seq<Id>, picked: seq<Id>, at: seq<int>) {
    && |at| == |picked|
    && (forall a :: 0 <= a < |at| ==> 0 <= at[a] < |list| && list[at[a]] == picked[a])
    && (forall a, b :: 0 <= a < b < |at| ==> at[a] < at[b])
  }

  function Shifted(at: seq<int>): seq<int> {
    seq(|at|, a requires 0 <= a < |at| => at[a] + 1)
  }

  lemma PicksLater(list: seq<Id>, picked: seq<Id>, at: seq<int>)
    requires list != [] && Picks(list[1..], picked, at)
    ensures Picks(list, picked, Shifted(at))
    ensures Picks(list, [list[0]] + picked, [0] + Shifted(at))
  {
    forall a | 0 <= a < |at| ensures 1 <= Shifted(at)[a] < |list| && list[Shifted(at)[a]] == picked[a] {
      assert list[1..][at[a]] == list[at[a] + 1];
    }
  }

  lemma {:induction false} OnTeamPicks(allowed: seq<Id>, team: seq<Id>) returns (at: seq<int>)
    ensures Picks(allowed, OnTeam(allowed, team), at)
    ensures forall i :: 0 <= i < |allowed| && allowed[i] in team ==> i in at
  {
    if allowed == [] {
      at := [];
    } else {
      var rest := OnTeamPicks(allowed[1..], team);
      PicksLater(allowed, OnTeam(allowed[1..], team), rest);
      hide Picks;
      at := if allowed[0] in team then [0] + Shifted(rest) else Shifted(rest);
      forall i | 0 < i < |allowed| && allowed[i] in team ensures i in Shifted(rest) {
        assert allowed[1..][i - 1] == allowed[i];
        var a :| 0 <= a < |rest| && rest[a] == i - 1;
        assert Shifted(rest)[a] == i;
      }
      assert allowed[0] in team ==> at[0] == 0;
    }
  }

  lemma InOrder(list: seq<Id>, picked: seq<Id>, at: seq<int>, a: nat, b: nat)
    requires Picks(list, picked, at) && a < |at| && b < |at| && at[a] < at[b]
    ensures a < b
  {
  }

  lemma FirstMember(s: seq<Id>)
    ensures s == [] || s[0] in s
  {
  }

  lemma NotBefore(list: seq<Id>, y: nat, x: Id)
    requires y <= |list| && x !in list[..y]
    ensures forall z :: 0 <= z < y ==> list[z] != x
  {
    forall z | 0 <= z < y ensures list[z] != x {
      assert list[..y][z] == list[z];
    }
  }

  /** The eligible people are the entries of the priority list that may do the task, all of them
      and in that order. */
  lemma EligibleMeaning(people: seq<Person>, task: Task) returns (at: seq<int>)
    ensures Picks(Priority(people, task), Eligible(people, task), at)
    ensures forall i :: 0 <= i < |Priority(people, task)| && OnRoster(people, Priority(people, task)[i]) ==> i in at
    ensures forall q :: q in Eligible(people, task) <==> MayDo(people, task, q)
  {
    var ids := PersonIds(people);
    OnTeamMembers(task.allowed, ids);
    forall q ensures OnRoster(people, q) <==> q in ids {
      OnRosterIds(people, q);
    }
    if AnyAllowed(people, task) {
      at := OnTeamPicks(task.allowed, ids);
      var q :| q in task.allowed && OnRoster(people, q);
      assert q in OnTeam(task.allowed, ids);
    } else {
      at := seq(|ids|, a requires 0 <= a < |ids| => a);
      assert forall i :: 0 <= i < |ids| ==> at[i] == i;
      assert OnTeam(task.allowed, ids) == [] by {
        FirstMember(OnTeam(task.allowed, ids));
      }
    }
  }

  /** Whoever stands before another in the priority list and is on the team does so among the
      eligible people. */
  lemma PrecedesEligible(people: seq<Person>, task: Task, q: Id, i: nat)
    requires i < |Eligible(people, task)| && MayDo(people, task, q)
    requires Precedes(people, task, q, Eligible(people, task)[i])
    ensures exists a :: 0 <= a < i && Eligible(people, task)[a] == q
  {
    var list, picked := Priority(people, task), Eligible(people, task);
    var at := EligibleMeaning(people, task);
    var x, y :| 0 <= x < y < |list| && list[x] == q && list[y] == picked[i] && picked[i] !in list[..y];
    assert x in at;
    var a :| 0 <= a < |at| && at[a] == x;
    NotBefore(list, y, picked[i]);
    InOrder(list, picked, at, a, i);
  }

  // Who gets it -----------------------------------------------------------------------

  /** Dates `(start, end)` come before `(start2, end2)`, start first. */
  predicate Sooner(start: Date, end: Date, start2: Date, end2: Date) {
    start < start2 || (start == start2 && end < end2)
  }

  /** The work of assignment `b` is what its person would do, and nobody who may do the task would
      be done sooner; those who precede its person would be strictly later. */
  ghost predicate WinsRace(req: PlanRequest, team: Team, ledger: seq<DayAllocation>, task: Task, earliest: Date,
                           b: Assignment)
    requires task.isSplittable ==> 1 <= task.durationHours
  {
    var own := PlaceOne(team, ledger, task, b.person, earliest, req.horizonStart + 365);
    && MayDo(req.people, task, b.person)
    && b.startDate == own.start && b.endDate == own.end && b.allocations == own.fitted + own.dumped
    && forall q :: MayDo(req.people, task, q) ==>
         var p := PlaceOne(team, ledger, task, q, earliest, req.horizonStart + 365);
         && !Sooner(p.start, p.end, b.startDate, b.endDate)
         && (Precedes(req.people, task, q, b.person) ==> Sooner(b.startDate, b.endDate, p.start, p.end))
  }

  lemma RaceOverAll(req: PlanRequest, team: Team, ledger: seq<DayAllocation>, task: Task, earliest: Date)
    requires req.people != [] && !task.isWindow && !IsPair(req.people, task)
    requires task.isSplittable ==> 1 <= task.durationHours
    ensures var c := PlaceTask(req.people, team, ledger, task, earliest, req.horizonStart + 365);
            WinsRace(req, team, ledger, task, earliest, ToAssignment(task.id, c))
  {
    hide PlaceOne, Placements, PlaceWindow, PlaceTogether, Precedes, OnRoster, AnyAllowed, MayDo;
    var limit := req.horizonStart + 365;
    var candidates := Eligible(req.people, task);
    var at := EligibleMeaning(req.people, task);
    var i := BestIsEarliest(team, ledger, task, candidates, earliest, limit);
    var ps := Placements(team, ledger, task, candidates, earliest, limit);
    assert candidates[i] in candidates;
    forall q | MayDo(req.people, task, q)
      ensures var p := PlaceOne(team, ledger, task, q, earliest, limit);
              && !p.Earlier(ps[i])
              && (Precedes(req.people, task, q, candidates[i]) ==> ps[i].Earlier(p))
    {
      assert q in candidates;
      var j :| 0 <= j < |candidates| && candidates[j] == q;
      PlacementAt(team, ledger, task, candidates, earliest, limit, j);
      assert !ps[j].Earlier(ps[i]);
      if Precedes(req.people, task, q, candidates[i]) {
        PrecedesEligible(req.people, task, q, i);
        var a :| 0 <= a < i && candidates[a] == q;
        PlacementAt(team, ledger, task, candidates, earliest, limit, a);
      }
    }
  }

  /** In every plan, a task that is neither done, external nor a pair goes to whoever is done
      soonest, given what was placed before its turn; everybody who may do it takes part. */
  lemma EveryoneRaces(req: PlanRequest, calendar: WeekendCalendar, order: seq<Id>, plan: PlanResult, b: Assignment)
    returns (task: Task, k: nat)
    requires Schedulable(req) && IsPlanAlong(req, calendar, order, plan)
    requires b in plan.assignments && !HasFixedId(req.tasks, b.taskId)
    ensures k < |order| && order[k] == b.taskId
    ensures TaskById(req.tasks, b.taskId) == Some(task) && (task.isSplittable ==> 1 <= task.durationHours)
    ensures var team := MakeTeam(req.people, calendar, req.dayOverrides);
            var edges := Dag(req.tasks, req.dependencies).edges;
            var st := RunOrder(req, team, edges, order[..k]);
            !task.isWindow && !IsPair(req.people, task) ==>
              WinsRace(req, team, st.ledger, task,
                       EarliestStart(calendar, edges, task.id, st.placed, req.horizonStart), b)
  {
    hide WinsRace, PlaceTask;
    task, k := AssignmentOrigin(req, calendar, order, plan, b);
    var team := MakeTeam(req.people, calendar, req.dayOverrides);
    var edges := Dag(req.tasks, req.dependencies).edges;
    var st := RunOrder(req, team, edges, order[..k]);
    if !task.isWindow && !IsPair(req.people, task) {
      RaceOverAll(req, team, st.ledger, task, EarliestStart(calendar, edges, task.id, st.placed, req.horizonStart));
    }
  }

  /** A person has the hours free on a day. */
  ghost predicate HasFree(req: PlanRequest, calendar: WeekendCalendar, ledger: seq<DayAllocation>, q: Id, hours: int,
                          day: Date)
  {
    && day !in calendar.holidays && 1 <= day % 7 <= 5
    && forall h :: IsCeiling(req.people, calendar, req.dayOverrides, q, day, h) ==> HoursOn(ledger, q, day) + hours <= h
  }

  lemma HasFreeIsFree(req: PlanRequest, calendar: WeekendCalendar, ledger: seq<DayAllocation>, q: Id, hours: int,
                      day: Date)
    ensures HasFree(req, calendar, ledger, q, hours, day) <==>
            AllFree(MakeTeam(req.people, calendar, req.dayOverrides), ledger, [q], hours, day)
  {
    var base := MakeTeam(req.people, calendar, req.dayOverrides).BaseCapacity(q, day);
    calendar.WorkingDayMeaning(day);
    forall h ensures IsCeiling(req.people, calendar, req.dayOverrides, q, day, h) <==> h == base {
      BaseCapacityIsCeiling(req.people, calendar, req.dayOverrides, q, day, h);
    }
    assert q in [q] && IsCeiling(req.people, calendar, req.dayOverrides, q, day, base);
  }

  /** Before a task that cannot be split starts, nobody who may do it had a day with room for it. */
  lemma NobodyHadRoom(req: PlanRequest, calendar: WeekendCalendar, order: seq<Id>, plan: PlanResult, b: Assignment,
                      q: Id, day: Date)
    returns (k: nat)
    requires Schedulable(req) && IsPlanAlong(req, calendar, order, plan)
    requires b in plan.assignments && !HasFixedId(req.tasks, b.taskId)
    requires TaskById(req.tasks, b.taskId).Some?
    requires var task := TaskById(req.tasks, b.taskId).value;
             !task.isWindow && !IsPair(req.people, task) && !task.isSplittable && MayDo(req.people, task, q)
    requires day < b.startDate && day <= req.horizonStart + 365
    ensures k < |order| && order[k] == b.taskId
    ensures var st := RunOrder(req, MakeTeam(req.people, calendar, req.dayOverrides),
                               Dag(req.tasks, req.dependencies).edges, order[..k]);
            EarliestStart(calendar, Dag(req.tasks, req.dependencies).edges, b.taskId, st.placed, req.horizonStart) <= day ==>
            !HasFree(req, calendar, st.ledger, q, TaskById(req.tasks, b.taskId).value.durationHours, day)
  {
    hide RunOrder, Dag, EarliestStart, MakeTeam;
    var task;
    task, k := EveryoneRaces(req, calendar, order, plan, b);
    TaskByIdIsTask(req.tasks, b.taskId);
    var team := MakeTeam(req.people, calendar, req.dayOverrides);
    var edges := Dag(req.tasks, req.dependencies).edges;
    var st := RunOrder(req, team, edges, order[..k]);
    var est := EarliestStart(calendar, edges, b.taskId, st.placed, req.horizonStart);
    HasFreeIsFree(req, calendar, st.ledger, q, task.durationHours, day);
    TeamCalendar(req, calendar);
    if est <= day && AllFree(team, st.ledger, [q], task.durationHours, day) {
      TogetherEarliest(team, st.ledger, [q], task.durationHours, est, req.horizonStart + 365, day);
      TogetherShape(team, st.ledger, [q], task.durationHours, est, req.horizonStart + 365);
    }
  }

  lemma TeamCalendar(req: PlanRequest, calendar: WeekendCalendar)
    ensures MakeTeam(req.people, calendar, req.dayOverrides).calendar == calendar
  {
  }

  /** A required pair takes the first day on which both of the first two eligible people have the
      hours free, where the horizon has such a day. */
  lemma PairFirstDay(req: PlanRequest, calendar: WeekendCalendar, order: seq<Id>, plan: PlanResult, b: Assignment,
                     day: Date)
    returns (k: nat)
    requires Schedulable(req) && IsPlanAlong(req, calendar, order, plan)
    requires b in plan.assignments && !HasFixedId(req.tasks, b.taskId)
    requires TaskById(req.tasks, b.taskId).Some? && IsPair(req.people, TaskById(req.tasks, b.taskId).value)
    ensures k < |order| && order[k] == b.taskId
    ensures var task := TaskById(req.tasks, b.taskId).value;
            var edges := Dag(req.tasks, req.dependencies).edges;
            var st := RunOrder(req, MakeTeam(req.people, calendar, req.dayOverrides), edges, order[..k]);
            var est := EarliestStart(calendar, edges, task.id, st.placed, req.horizonStart);
            BothFree(req, calendar, st.ledger, task, day) && est <= day <= req.horizonStart + 365 ==>
              && est <= b.startDate <= day
              && BothFree(req, calendar, st.ledger, task, b.startDate)
              && forall e :: est <= e < b.startDate ==> !BothFree(req, calendar, st.ledger, task, e)
  {
    hide RunOrder, Dag, EarliestStart, MakeTeam, HasFree, PlaceTogether, PlaceOne;
    var task;
    task, k := AssignmentOrigin(req, calendar, order, plan, b);
    var team := MakeTeam(req.people, calendar, req.dayOverrides);
    var edges := Dag(req.tasks, req.dependencies).edges;
    var st := RunOrder(req, team, edges, order[..k]);
    var est := EarliestStart(calendar, edges, task.id, st.placed, req.horizonStart);
    var pair := [Eligible(req.people, task)[0], Eligible(req.people, task)[1]];
    TeamCalendar(req, calendar);
    forall e
      ensures BothFree(req, calendar, st.ledger, task, e) <==> AllFree(team, st.ledger, pair, task.durationHours, e)
    {
      BothFreeIsFree(req, calendar, st.ledger, task, e);
    }
    if BothFree(req, calendar, st.ledger, task, day) && est <= day <= req.horizonStart + 365 {
      TogetherEarliest(team, st.ledger, pair, task.durationHours, est, req.horizonStart + 365, day);
      TogetherShape(team, st.ledger, pair, task.durationHours, est, req.horizonStart + 365);
    }
  }

  ghost predicate BothFree(req: PlanRequest, calendar: WeekendCalendar, ledger: seq<DayAllocation>, task: Task, day: Date)
    requires IsPair(req.people, task)
  {
    && HasFree(req, calendar, ledger, Eligible(req.people, task)[0], task.durationHours, day)
    && HasFree(req, calendar, ledger, Eligible(req.people, task)[1], task.durationHours, day)
  }

  lemma BothFreeIsFree(req: PlanRequest, calendar: WeekendCalendar, ledger: seq<DayAllocation>, task: Task, day: Date)
    requires IsPair(req.people, task)
    ensures BothFree(req, calendar, ledger, task, day) <==>
            AllFree(MakeTeam(req.people, calendar, req.dayOverrides), ledger,
                    [Eligible(req.people, task)[0], Eligible(req.people, task)[1]], task.durationHours, day)
  {
    var p, q := Eligible(req.people, task)[0], Eligible(req.people, task)[1];
    HasFreeIsFree(req, calendar, ledger, p, task.durationHours, day);
    HasFreeIsFree(req, calendar, ledger, q, task.durationHours, day);
    assert p in [p] && q in [q] && p in [p, q] && q in [p, q];
  }

  /** A task is a pair when it must be and two may do it; the two are the first in priority. */
  lemma PairMeaning(people: seq<Person>, task: Task) returns (i: nat, j: nat)
    ensures IsPair(people, task) <==>
            !task.isWindow && task.pairMode == RequiredPair &&
            exists x, y :: 0 <= x < y < |Priority(people, task)|
                           && OnRoster(people, Priority(people, task)[x]) && OnRoster(people, Priority(people, task)[y])
    ensures IsPair(people, task) ==>
              && i < j < |Priority(people, task)|
              && Eligible(people, task)[0] == Priority(people, task)[i]
              && Eligible(people, task)[1] == Priority(people, task)[j]
              && forall z :: 0 <= z < j && OnRoster(people, Priority(people, task)[z]) ==> z == i
  {
    hide Eligible, OnRoster, Priority, AnyAllowed;
    var list, picked := Priority(people, task), Eligible(people, task);
    var at := EligibleMeaning(people, task);
    forall a | 0 <= a < |picked| ensures OnRoster(people, list[at[a]]) {
      assert picked[a] in picked;
      MayDoOnRoster(people, task, picked[a]);
    }
    if x, y :| 0 <= x < y < |list| && OnRoster(people, list[x]) && OnRoster(people, list[y]) {
      assert x in at && y in at;
    }
    if 2 <= |picked| {
      i, j := at[0], at[1];
      forall z | 0 <= z < j && OnRoster(people, list[z]) ensures z == i {
        var a :| 0 <= a < |at| && at[a] == z;
        InOrder(list, picked, at, a, 1);
      }
    } else {
      i, j := 0, 0;
    }
  }

  lemma FirstEligible(people: seq<Person>, task: Task) returns (i: nat)
    requires people != []
    ensures i < |Priority(people, task)| && Priority(people, task)[i] == Eligible(people, task)[0]
    ensures OnRoster(people, Priority(people, task)[i])
    ensures forall z :: 0 <= z < i ==> !OnRoster(people, Priority(people, task)[z])
  {
    hide OnRoster, Priority, AnyAllowed;
    var list, picked := Priority(people, task), Eligible(people, task);
    var at := EligibleMeaning(people, task);
    assert picked[0] in picked;
    MayDoOnRoster(people, task, picked[0]);
    i := at[0];
    forall z | 0 <= z < i ensures !OnRoster(people, list[z]) {
      if OnRoster(people, list[z]) {
        var a :| 0 <= a < |at| && at[a] == z;
        InOrder(list, picked, at, a, 0);
      }
    }
  }

  /** A window and a pair are in the name of the first in priority who is on the team. */
  lemma FirstInPriority(req: PlanRequest, calendar: WeekendCalendar, order: seq<Id>, plan: PlanResult, b: Assignment)
    returns (i: nat)
    requires Schedulable(req) && IsPlanAlong(req, calendar, order, plan)
    requires b in plan.assignments && !HasFixedId(req.tasks, b.taskId)
    requires TaskById(req.tasks, b.taskId).Some?
    requires TaskById(req.tasks, b.taskId).value.isWindow || IsPair(req.people, TaskById(req.tasks, b.taskId).value)
    ensures var list := Priority(req.people, TaskById(req.tasks, b.taskId).value);
            && i < |list| && list[i] == b.person && OnRoster(req.people, b.person)
            && forall z :: 0 <= z < i ==> !OnRoster(req.people, list[z])
  {
    hide RunOrder, Dag, EarliestStart, MakeTeam, OnRoster, Priority, PlaceTogether, PlaceWindow;
    var task, k := AssignmentOrigin(req, calendar, order, plan, b);
    i := FirstEligible(req.people, task);
  }

  lemma MayDoOnRoster(people: seq<Person>, task: Task, q: Id)
    requires MayDo(people, task, q)
    ensures OnRoster(people, q)
  {
  }

  // Capacity ----------------------------------------------------------------------------

  /** A cell is flagged exactly when existing and planned hours exceed what the person can work on
      that day; only a cell without hours under a negative ceiling is left open. */
  lemma FlaggedAboveCeiling(req: PlanRequest, calendar: WeekendCalendar, plan: PlanResult, person: Id, day: Date, h: int)
    requires Schedulable(req) && IsPlan(req, calendar, plan) && DistinctTasks(req.tasks)
    requires IsCeiling(req.people, calendar, req.dayOverrides, person, day, h)
    ensures var hours := HoursOn(req.existing + Flatten(plan.assignments), person, day);
            var flagged := exists r :: r in plan.risks && r.kind == "overload"
                                       && r.person == Some(person) && r.day == Some(day);
            (flagged ==> h < hours) && (h < hours && (0 <= h || hours != 0) ==> flagged)
  {
    hide IsPlan, IsCeiling;
    BaseCapacityIsCeiling(req.people, calendar, req.dayOverrides, person, day, h);
    FlagsExact(req, calendar, plan, person, day);
    assert Flagged(plan, person, day) <==>
           exists r :: r in plan.risks && r.kind == "overload" && r.person == Some(person) && r.day == Some(day) by {
      assert forall r :: IsOverloadOf(r, person, day) <==>
                         r.kind == "overload" && r.person == Some(person) && r.day == Some(day);
    }
  }

  lemma OneFittedNonNegative(team: Team, ledger: seq<DayAllocation>, task: Task, person: Id, earliest: Date, limit: Date)
    requires 0 <= task.durationHours
    requires task.isSplittable ==> 1 <= task.durationHours
    ensures NonNegativeHours(PlaceOne(team, ledger, task, person, earliest, limit).fitted)
  {
    OneNonNegative(team, ledger, task, person, earliest, limit);
    hide PlaceOne;
    var p := PlaceOne(team, ledger, task, person, earliest, limit);
    NonNegativeConcat(p.fitted, p.dumped);
  }

  lemma FitsNothing(team: Team, ledger: seq<DayAllocation>, p: Placement, person: Id, day: Date)
    requires FitsUnder(team, ledger, p) && NonNegativeHours(ledger) && NonNegativeHours(p.fitted)
    requires team.BaseCapacity(person, day) <= 0
    ensures HoursOn(p.fitted, person, day) == 0
  {
    HoursOnNonNegative(ledger, person, day);
    HoursOnNonNegative(p.fitted, person, day);
  }

  lemma TurnOnClosedDay(req: PlanRequest, team: Team, edges: seq<Edge>, st: Progress, task: Task, person: Id, day: Date)
    requires req.people != [] && task in req.tasks && DistinctPeople(req) && 0 <= task.durationHours
    requires task.isSplittable ==> 1 <= task.durationHours
    requires NonNegativeHours(st.ledger) && team.BaseCapacity(person, day) <= 0
    ensures var p := ChoiceFor(req, team, edges, st, task).placement;
            HoursOn(p.Allocations(), person, day) == HoursOn(p.dumped, person, day)
  {
    hide PlaceTask;
    var est := EarliestStart(team.calendar, edges, task.id, st.placed, req.horizonStart);
    var p := ChoiceFor(req, team, edges, st, task).placement;
    PlaceTaskFits(req, team, st.ledger, task, est, req.horizonStart + HORIZON_DAYS);
    PlacedNonNegative(req.people, team, st.ledger, task, est, req.horizonStart + HORIZON_DAYS);
    NonNegativeConcat(p.fitted, p.dumped);
    FitsNothing(team, st.ledger, p, person, day);
    HoursOnConcat(p.fitted, p.dumped, person, day);
  }

  lemma {:induction false} RunOnClosedDay(req: PlanRequest, team: Team, edges: seq<Edge>, order: seq<Id>, person: Id,
                                          day: Date)
    requires Schedulable(req) && DistinctPeople(req) && NonNegativeDurations(req.tasks) && NonNegativeHours(req.existing)
    requires team.BaseCapacity(person, day) <= 0
    ensures var st := RunOrder(req, team, edges, order);
            HoursOn(st.ledger, person, day) ==
            HoursOn(PrePlaced(req.tasks, req.existing).ledger, person, day) + HoursOn(st.dumps, person, day)
  {
    hide PrePlaced, ChoiceFor;
    if order == [] {
      NoDumpsBefore(req.tasks, req.existing);
    } else {
      var init, id := order[..|order| - 1], order[|order| - 1];
      RunOnClosedDay(req, team, edges, init, person, day);
      RunNonNegative(req, team, edges, init);
      var st := RunOrder(req, team, edges, init);
      TaskByIdIsTask(req.tasks, id);
      var found := TaskById(req.tasks, id);
      if found.Some? && id !in st.placed {
        var p := ChoiceFor(req, team, edges, st, found.value).placement;
        TurnOnClosedDay(req, team, edges, st, found.value, person, day);
        HoursOnConcat(st.ledger, p.Allocations(), person, day);
        HoursOnConcat(st.dumps, p.dumped, person, day);
      }
    }
  }

  /** On a day a person cannot work at all, such as a day of vacation, a plan puts nothing but what
      was there before and what it dumps. */
  lemma NothingOnClosedDay(req: PlanRequest, calendar: WeekendCalendar, order: seq<Id>, plan: PlanResult,
                           person: Id, day: Date, h: int)
    requires Schedulable(req) && IsPlanAlong(req, calendar, order, plan)
    requires DistinctTasks(req.tasks) && DistinctPeople(req)
    requires NonNegativeDurations(req.tasks) && NonNegativeHours(req.existing)
    requires IsCeiling(req.people, calendar, req.dayOverrides, person, day, h) && h <= 0
    ensures var team := MakeTeam(req.people, calendar, req.dayOverrides);
            var st := RunOrder(req, team, Dag(req.tasks, req.dependencies).edges, order);
            HoursOn(req.existing + Flatten(plan.assignments), person, day) ==
            HoursOn(PrePlaced(req.tasks, req.existing).ledger, person, day) + HoursOn(st.dumps, person, day)
  {
    hide IsPlanAlong, IsCeiling, RunOrder, PrePlaced;
    var team := MakeTeam(req.people, calendar, req.dayOverrides);
    BaseCapacityIsCeiling(req.people, calendar, req.dayOverrides, person, day, h);
    RunOnClosedDay(req, team, Dag(req.tasks, req.dependencies).edges, order, person, day);
    IndexIsSum(req, calendar, order, plan, person, day);
  }

  // Days --------------------------------------------------------------------------------

  predicate IsOpenDay(calendar: WeekendCalendar, day: Date) {
    day !in calendar.holidays && 1 <= day % 7 <= 5
  }

  /** No date and no hour of a task that is not done lies on a holiday or a weekend. */
  lemma OnOpenDays(req: PlanRequest, calendar: WeekendCalendar, plan: PlanResult, b: Assignment)
    requires Schedulable(req) && IsPlan(req, calendar, plan) && DistinctTasks(req.tasks)
    requires b in plan.assignments && !HasFixedId(req.tasks, b.taskId)
    ensures IsOpenDay(calendar, b.startDate) && IsOpenDay(calendar, b.endDate)
    ensures forall x :: x in b.allocations ==> IsOpenDay(calendar, x.day)
  {
    HoursConserved(req, calendar, plan, b);
    calendar.WorkingDayMeaning(b.startDate);
    calendar.WorkingDayMeaning(b.endDate);
    forall x | x in b.allocations ensures IsOpenDay(calendar, x.day) {
      calendar.WorkingDayMeaning(x.day);
    }
  }

  ghost function OpenDays(calendar: WeekendCalendar, a: Date, b: Date): set<Date> {
    set d | a <= d < b && d !in calendar.holidays && 1 <= d % 7 <= 5
  }

  /** The last dependency stated between two tasks holds: a successor that is not done starts after
      its predecessor's end, or on or after its start, with as many open days in between as the lag
      asks for, counting the successor's first day. */
  lemma DependencyHolds(req: PlanRequest, calendar: WeekendCalendar, plan: PlanResult, i: nat, a: Assignment,
                        b: Assignment)
    requires Schedulable(req) && IsPlan(req, calendar, plan)
    requires i < |req.dependencies|
    requires forall k :: i < k < |req.dependencies| ==>
               || req.dependencies[k].dependsOn != req.dependencies[i].dependsOn
               || req.dependencies[k].taskId != req.dependencies[i].taskId
    requires a in plan.assignments && a.taskId == req.dependencies[i].dependsOn
    requires b in plan.assignments && b.taskId == req.dependencies[i].taskId && !HasFixedId(req.tasks, b.taskId)
    ensures var d := req.dependencies[i];
            var from := if d.link == FS then a.endDate + 1 else a.startDate;
            from <= b.startDate && d.lag - 1 <= |OpenDays(calendar, from, b.startDate)|
  {
    var d := req.dependencies[i];
    LastDependency(req.dependencies, d.dependsOn, d.taskId, i);
    var e := Edge(d.dependsOn, d.taskId, d.link, d.lag);
    Precedence(req, calendar, plan, e, a, b);
    calendar.BusinessDaysIsCount(if d.link == FS then a.endDate + 1 else a.startDate, b.startDate);
  }

  lemma {:induction false} LastDependency(deps: seq<Dependency>, u: Id, v: Id, i: nat)
    requires i < |deps| && deps[i].dependsOn == u && deps[i].taskId == v
    requires forall k :: i < k < |deps| ==> deps[k].dependsOn != u || deps[k].taskId != v
    ensures LastEdge(deps, u, v) == Some(Edge(u, v, deps[i].link, deps[i].lag))
  {
    if i < |deps| - 1 {
      LastDependency(deps[..|deps| - 1], u, v, i);
    }
  }

  /** The first open day on or after `from`. */
  ghost predicate IsFirstOpen(calendar: WeekendCalendar, from: Date, day: Date) {
    from <= day && IsOpenDay(calendar, day) && forall d :: from <= d < day ==> !IsOpenDay(calendar, d)
  }

  lemma FirstFromIsOpen(calendar: WeekendCalendar, from: Date)
    ensures IsFirstOpen(calendar, from, calendar.FirstFrom(from))
  {
    calendar.FirstFromMeaning(from);
  }

  /** A window starts on the first open day it may and spans its hours in open days of eight hours,
      rounded up, at least one; nobody works on it. */
  lemma WindowPromise(req: PlanRequest, calendar: WeekendCalendar, order: seq<Id>, plan: PlanResult, b: Assignment)
    returns (k: nat)
    requires Schedulable(req) && IsPlanAlong(req, calendar, order, plan)
    requires b in plan.assignments && !HasFixedId(req.tasks, b.taskId)
    requires TaskById(req.tasks, b.taskId).Some? && TaskById(req.tasks, b.taskId).value.isWindow
    ensures k < |order| && order[k] == b.taskId
    ensures var edges := Dag(req.tasks, req.dependencies).edges;
            var st := RunOrder(req, MakeTeam(req.people, calendar, req.dayOverrides), edges, order[..k]);
            IsFirstOpen(calendar, EarliestStart(calendar, edges, b.taskId, st.placed, req.horizonStart), b.startDate)
    ensures var hours := TaskById(req.tasks, b.taskId).value.durationHours;
            var days := |OpenDays(calendar, b.startDate, b.endDate + 1)|;
            1 <= days && hours <= 8 * days && (days == 1 || 8 * (days - 1) < hours)
    ensures b.allocations == []
  {
    hide RunOrder, Dag, EarliestStart, MakeTeam, IsFirstOpen;
    var task;
    task, k := AssignmentOrigin(req, calendar, order, plan, b);
    TaskByIdIsTask(req.tasks, b.taskId);
    var team := MakeTeam(req.people, calendar, req.dayOverrides);
    var edges := Dag(req.tasks, req.dependencies).edges;
    TeamCalendar(req, calendar);
    var est := EarliestStart(calendar, edges, task.id, RunOrder(req, team, edges, order[..k]).placed, req.horizonStart);
    WindowShape(calendar, task.durationHours, est);
    FirstFromIsOpen(calendar, est);
    calendar.BusinessDaysIsCount(b.startDate, b.endDate + 1);
  }

  /** The day has room for the task as `b` does it: for both people of a pair, else for its person. */
  ghost predicate HasRoom(req: PlanRequest, calendar: WeekendCalendar, ledger: seq<DayAllocation>, task: Task,
                          b: Assignment, day: Date)
  {
    if IsPair(req.people, task) then BothFree(req, calendar, ledger, task, day)
    else HasFree(req, calendar, ledger, b.person, task.durationHours, day)
  }

  lemma DumpedFirst(team: Team, ledger: seq<DayAllocation>, people: seq<Id>, hours: int, earliest: Date, limit: Date)
    requires forall d :: earliest <= d <= limit ==> !AllFree(team, ledger, people, hours, d)
    ensures PlaceTogether(team, ledger, people, hours, earliest, limit).start == team.calendar.FirstFrom(earliest)
  {
    hide AllFree;
    var first := team.calendar.FirstFrom(earliest);
    FirstFitLeast(team, ledger, people, hours, first, limit, first);
  }

  lemma OneDayPlacement(people: seq<Person>, team: Team, ledger: seq<DayAllocation>, task: Task, earliest: Date,
                        limit: Date)
    requires people != [] && !task.isWindow && (IsPair(people, task) || !task.isSplittable)
    requires task.isSplittable ==> 1 <= task.durationHours
    ensures var c := PlaceTask(people, team, ledger, task, earliest, limit);
            c.placement == PlaceTogether(team, ledger,
                                         if IsPair(people, task) then [Eligible(people, task)[0], Eligible(people, task)[1]]
                                         else [c.person],
                                         task.durationHours, earliest, limit)
  {
    hide PlaceTogether;
    if !IsPair(people, task) {
      BestIsCandidate(team, ledger, task, Eligible(people, task), earliest, limit);
    }
  }

  /** Where no day of the horizon has room, a task that is done on one day goes to the first open
      day it may start on. */
  lemma WithoutRoom(req: PlanRequest, calendar: WeekendCalendar, order: seq<Id>, plan: PlanResult, b: Assignment)
    returns (k: nat)
    requires Schedulable(req) && IsPlanAlong(req, calendar, order, plan)
    requires b in plan.assignments && !HasFixedId(req.tasks, b.taskId)
    requires TaskById(req.tasks, b.taskId).Some?
    requires var task := TaskById(req.tasks, b.taskId).value;
             !task.isWindow && (IsPair(req.people, task) || !task.isSplittable)
    ensures k < |order| && order[k] == b.taskId
    ensures var task := TaskById(req.tasks, b.taskId).value;
            var edges := Dag(req.tasks, req.dependencies).edges;
            var st := RunOrder(req, MakeTeam(req.people, calendar, req.dayOverrides), edges, order[..k]);
            var est := EarliestStart(calendar, edges, task.id, st.placed, req.horizonStart);
            (forall e :: est <= e <= req.horizonStart + 365 ==> !HasRoom(req, calendar, st.ledger, task, b, e)) ==>
              IsFirstOpen(calendar, est, b.startDate)
  {
    hide RunOrder, Dag, EarliestStart, MakeTeam, IsFirstOpen, HasFree, AllFree, PlaceTogether, PlaceTask;
    var task;
    task, k := AssignmentOrigin(req, calendar, order, plan, b);
    var team := MakeTeam(req.people, calendar, req.dayOverrides);
    var edges := Dag(req.tasks, req.dependencies).edges;
    var st := RunOrder(req, team, edges, order[..k]);
    var est := EarliestStart(calendar, edges, task.id, st.placed, req.horizonStart);
    TeamCalendar(req, calendar);
    FirstFromIsOpen(calendar, est);
    if forall e :: est <= e <= req.horizonStart + 365 ==> !HasRoom(req, calendar, st.ledger, task, b, e) {
      var people := if IsPair(req.people, task) then [Eligible(req.people, task)[0], Eligible(req.people, task)[1]]
                    else [b.person];
      forall e | est <= e <= req.horizonStart + 365 ensures !AllFree(team, st.ledger, people, task.durationHours, e) {
        assert !HasRoom(req, calendar, st.ledger, task, b, e);
        if IsPair(req.people, task) {
          BothFreeIsFree(req, calendar, st.ledger, task, e);
        } else {
          HasFreeIsFree(req, calendar, st.ledger, b.person, task.durationHours, e);
        }
      }
      DumpedFirst(team, st.ledger, people, task.durationHours, est, req.horizonStart + 365);
      OneDayPlacement(req.people, team, st.ledger, task, est, req.horizonStart + 365);
    }
  }

  // Done tasks ----------------------------------------------------------------------------

  /** What makes a task immovable. */
  lemma FixedMeaning(tasks: seq<Task>, id: Id)
    ensures HasFixedId(tasks, id) <==>
            exists t :: t in tasks && t.id == id && t.status == Done && t.fixedStart.Some? && t.fixedAssignee.Some?
  {
  }

  /** It keeps its dates, its assignee and its hours, all on its first day. */
  lemma DoneTasksStay(req: PlanRequest, calendar: WeekendCalendar, plan: PlanResult, t: Task)
    requires Schedulable(req) && IsPlan(req, calendar, plan) && DistinctTasks(req.tasks)
    requires t in req.tasks && t.status == Done && t.fixedStart.Some? && t.fixedAssignee.Some?
    ensures var start, person := t.fixedStart.value, t.fixedAssignee.value;
            Assignment(t.id, person, start, if t.fixedEnd.Some? then t.fixedEnd.value else start,
                       [DayAllocation(person, start, t.durationHours)]) in plan.assignments
  {
    FixedTasksStay(req, calendar, plan, t);
  }

  // End and risks -------------------------------------------------------------------------

  /** The plan's end is the latest end of a task, and there is none without tasks. */
  lemma EndIsLatest(req: PlanRequest, calendar: WeekendCalendar, plan: PlanResult)
    requires Schedulable(req) && IsPlan(req, calendar, plan)
    ensures plan.endDate.None? <==> plan.assignments == []
    ensures plan.endDate.Some? ==>
              && (forall a :: a in plan.assignments ==> a.endDate <= plan.endDate.value)
              && (exists a :: a in plan.assignments && a.endDate == plan.endDate.value)
  {
    LatestIsMax(plan.assignments);
  }

  /** The hours of a day as working days: the least number of days of that capacity that holds
      them; without a capacity the hours themselves. */
  ghost predicate InDays(hours: int, capacity: int, days: int) {
    if hours <= 0 then days == 0
    else if capacity <= 0 then days == hours
    else capacity * (days - 1) < hours <= capacity * days
  }

  /** How an overload is worded. */
  ghost predicate IsOverloadFlag(req: PlanRequest, calendar: WeekendCalendar, plan: PlanResult, r: RiskFlag) {
    exists p, d, h, n ::
      && IsCeiling(req.people, calendar, req.dayOverrides, p, d, h)
      && InDays(HoursOn(req.existing + Flatten(plan.assignments), p, d), h, n)
      && r == RiskFlag("overload", "≈" + Decimal(n) + " раб. дн. нагрузки на 1 день, " + DateText(d) + ".",
                       None, Some(p), Some(d))
  }

  lemma WordedInDays(hours: int, capacity: int)
    ensures InDays(hours, capacity, HoursToWorkingDays(hours, capacity))
  {
    if 0 < hours && 0 < capacity {
      WorkingDaysRoundUp(hours, capacity);
    }
  }

  lemma OneFlagWorded(req: PlanRequest, calendar: WeekendCalendar, plan: PlanResult, o: Overload)
    requires o.used == HoursOn(req.existing + Flatten(plan.assignments), o.cell.person, o.cell.day)
    requires o.base == MakeTeam(req.people, calendar, req.dayOverrides).BaseCapacity(o.cell.person, o.cell.day)
    ensures IsOverloadFlag(req, calendar, plan, OverloadFlag(o))
  {
    hide IsCeiling, InDays, Decimal, DateText, HoursToWorkingDays;
    var n := HoursToWorkingDays(o.used, o.base);
    BaseCapacityIsCeiling(req.people, calendar, req.dayOverrides, o.cell.person, o.cell.day, o.base);
    WordedInDays(o.used, o.base);
    assert "≈" + Decimal(n) + " раб. дн. нагрузки на 1 день, " + DateText(o.cell.day) + "."
           == OverloadMessage(n, o.cell.day);
    assert InDays(HoursOn(req.existing + Flatten(plan.assignments), o.cell.person, o.cell.day), o.base, n);
  }

  /** The risks of a plan: its overloads, and last the missed deadline if there is one, all worded
      with the hours, the days and the dates they are about. */
  lemma RisksWorded(req: PlanRequest, calendar: WeekendCalendar, plan: PlanResult) returns (n: nat)
    requires Schedulable(req) && IsPlan(req, calendar, plan) && DistinctTasks(req.tasks)
    ensures n <= |plan.risks| && forall i :: 0 <= i < n ==> IsOverloadFlag(req, calendar, plan, plan.risks[i])
    ensures plan.risks[n..] ==
            if req.deadline.Some? && plan.endDate.Some? && req.deadline.value < plan.endDate.value then
              [RiskFlag("deadline_missed", "Plan ends " + DateText(plan.endDate.value) + ", deadline " +
                                           DateText(req.deadline.value) + ".", None, None, None)]
            else []
  {
    hide IsOverloadFlag, OverloadFlag, DateText, RunOrder, Dag;
    var order :| IsPlanAlong(req, calendar, order, plan);
    var team := MakeTeam(req.people, calendar, req.dayOverrides);
    var st := RunOrder(req, team, Dag(req.tasks, req.dependencies).edges, order);
    var report :| IsOverloadReport(team, st.ledger, report) &&
                  plan.risks == OverloadFlags(report) + DeadlineFlags(req.deadline, plan.endDate);
    n := |report|;
    forall i | 0 <= i < n ensures IsOverloadFlag(req, calendar, plan, plan.risks[i]) {
      var o := report[i];
      assert o in report && plan.risks[i] == OverloadFlag(o);
      IndexIsSum(req, calendar, order, plan, o.cell.person, o.cell.day);
      OneFlagWorded(req, calendar, plan, o);
    }
    assert plan.risks[n..] == DeadlineFlags(req.deadline, plan.endDate);
  }
}
