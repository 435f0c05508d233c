/** The load a plan leaves behind: the index holds the plain sum of the hours, the overload
    flags are exactly the cells above their ceiling, and a cell only rises above its ceiling
    through the load it started with or through a dump. */
module Overloads {
  import opened Wrappers
  import opened Calendar
  import opened Models
  import opened Capacity
  import opened Graph
  import opened Solver
  import opened Plans

  /** All allocations of a list of assignments. */
  function Flatten(assignments: seq<Assignment>): seq<DayAllocation> {
    if assignments == [] then []
    else Flatten(assignments[..|assignments| - 1]) + assignments[|assignments| - 1].allocations
  }

  // The sum over a map of assignments ---------------------------------------

  ghost function HoursIn(placed: map<Id, Assignment>, person: Id, day: Date): int {
    if placed == map[] then 0
    else
      var id :| id in placed;
      HoursOn(placed[id].allocations, person, day) + HoursIn(placed - {id}, person, day)
  }

  lemma {:induction false} HoursInRemove(placed: map<Id, Assignment>, k: Id, person: Id, day: Date)
    requires k in placed
    ensures HoursIn(placed, person, day) ==
            HoursOn(placed[k].allocations, person, day) + HoursIn(placed - {k}, person, day)
    decreases |placed|
  {
    var id :| id in placed && HoursIn(placed, person, day) ==
                              HoursOn(placed[id].allocations, person, day) + HoursIn(placed - {id}, person, day);
    if id != k {
      HoursInRemove(placed - {id}, k, person, day);
      HoursInRemove(placed - {k}, id, person, day);
      assert placed - {id} - {k} == placed - {k} - {id};
    }
  }

  lemma HoursInInsert(placed: map<Id, Assignment>, a: Assignment, person: Id, day: Date)
    requires a.taskId !in placed
    ensures HoursIn(placed[a.taskId := a], person, day) ==
            HoursIn(placed, person, day) + HoursOn(a.allocations, person, day)
  {
    HoursInRemove(placed[a.taskId := a], a.taskId, person, day);
    assert placed[a.taskId := a] - {a.taskId} == placed;
  }

  ghost function Restrict(placed: map<Id, Assignment>, order: seq<Id>): map<Id, Assignment> {
    map id | id in placed && id in order :: placed[id]
  }

  lemma RestrictStep(placed: map<Id, Assignment>, init: seq<Id>, id: Id, person: Id, day: Date)
    requires id !in init
    ensures HoursIn(Restrict(placed, init + [id]), person, day) == HoursIn(Restrict(placed, init), person, day) +
              if id in placed then HoursOn(placed[id].allocations, person, day) else 0
  {
    var before, after := Restrict(placed, init), Restrict(placed, init + [id]);
    if id in placed {
      HoursInRemove(after, id, person, day);
      assert after - {id} == before;
    } else {
      assert after == before;
    }
  }

  /** The placed assignments of the tasks of an order sum up the same in map and list form. */
  lemma {:induction false} OrderedHours(order: seq<Id>, placed: map<Id, Assignment>, person: Id, day: Date)
    requires Distinct(order)
    ensures HoursOn(Flatten(Ordered(order, placed)), person, day) == HoursIn(Restrict(placed, order), person, day)
  {
    if order == [] {
      assert Restrict(placed, order) == map[];
    } else {
      var init, id := order[..|order| - 1], order[|order| - 1];
      OrderedHours(init, placed, person, day);
      assert order == init + [id];
      RestrictStep(placed, init, id, person, day);
      if id in placed {
        FlattenStep(Ordered(init, placed), placed[id], person, day);
      }
    }
  }

  lemma FlattenStep(list: seq<Assignment>, a: Assignment, person: Id, day: Date)
    ensures HoursOn(Flatten(list + [a]), person, day) ==
            HoursOn(Flatten(list), person, day) + HoursOn(a.allocations, person, day)
  {
    assert (list + [a])[..|list|] == list;
    HoursOnConcat(Flatten(list), a.allocations, person, day);
  }

  // The index refines the sum -------------------------------------------------

  lemma {:induction false} PrePlacedLedger(tasks: seq<Task>, existing: seq<DayAllocation>, person: Id, day: Date)
    requires DistinctTasks(tasks)
    ensures var p := PrePlaced(tasks, existing);
            HoursOn(p.ledger, person, day) == HoursOn(existing, person, day) + HoursIn(p.placed, person, day)
  {
    if tasks != [] {
      var init, t := tasks[..|tasks| - 1], tasks[|tasks| - 1];
      PrePlacedLedger(init, existing, person, day);
      if IsFixed(t) {
        PrePlacedKeys(init, existing);
        HoursInInsert(PrePlaced(init, existing).placed, FixedAssignment(t), person, day);
        HoursOnConcat(PrePlaced(init, existing).ledger, FixedAssignment(t).allocations, person, day);
      }
    }
  }

  lemma {:induction false} RunLedger(req: PlanRequest, team: Team, edges: seq<Edge>, order: seq<Id>,
                                     person: Id, day: Date)
    requires Schedulable(req) && DistinctTasks(req.tasks)
    ensures var st := RunOrder(req, team, edges, order);
            HoursOn(st.ledger, person, day) == HoursOn(req.existing, person, day) + HoursIn(st.placed, person, day)
  {
    if order == [] {
      PrePlacedLedger(req.tasks, req.existing, person, day);
    } else {
      var init, id := order[..|order| - 1], order[|order| - 1];
      RunLedger(req, team, edges, init, person, day);
      var st := RunOrder(req, team, edges, init);
      TaskByIdIsTask(req.tasks, id);
      var found := TaskById(req.tasks, id);
      if found.Some? && id !in st.placed {
        var c := ChoiceFor(req, team, edges, st, found.value);
        HoursOnConcat(st.ledger, c.placement.Allocations(), person, day);
        HoursInInsert(st.placed, ToAssignment(id, c), person, day);
      }
    }
  }

  /** At the end the index holds, for every cell, the existing hours plus the plan's hours. */
  lemma {:induction false} IndexIsSum(req: PlanRequest, calendar: WeekendCalendar, order: seq<Id>, plan: PlanResult,
                                      person: Id, day: Date)
    requires Schedulable(req) && IsPlanAlong(req, calendar, order, plan) && DistinctTasks(req.tasks)
    ensures var team := MakeTeam(req.people, calendar, req.dayOverrides);
            HoursOn(RunOrder(req, team, Dag(req.tasks, req.dependencies).edges, order).ledger, person, day) ==
            HoursOn(req.existing + Flatten(plan.assignments), person, day)
  {
    var team := MakeTeam(req.people, calendar, req.dayOverrides);
    var edges := Dag(req.tasks, req.dependencies).edges;
    var placed := RunOrder(req, team, edges, order).placed;
    RunLedger(req, team, edges, order, person, day);
    PlanEntries(req, calendar, order, plan);
    OrderedHours(order, placed, person, day);
    assert Restrict(placed, order) == placed;
    HoursOnConcat(req.existing, Flatten(plan.assignments), person, day);
  }

  // The flags -----------------------------------------------------------------

  predicate IsOverloadOf(r: RiskFlag, person: Id, day: Date) {
    r.kind == OVERLOAD && r.person == Some(person) && r.day == Some(day)
  }

  ghost predicate Flagged(plan: PlanResult, person: Id, day: Date) {
    exists r :: r in plan.risks && IsOverloadOf(r, person, day)
  }

  lemma FlagsOfReport(report: seq<Overload>, person: Id, day: Date)
    ensures (exists o :: o in report && o.cell == Cell(person, day)) <==>
            exists r :: r in OverloadFlags(report) && IsOverloadOf(r, person, day)
  {
    if o :| o in report && o.cell == Cell(person, day) {
      var i :| 0 <= i < |report| && report[i] == o;
      assert OverloadFlags(report)[i] in OverloadFlags(report);
      assert IsOverloadOf(OverloadFlags(report)[i], person, day);
    }
    if r :| r in OverloadFlags(report) && IsOverloadOf(r, person, day) {
      var i :| 0 <= i < |report| && OverloadFlags(report)[i] == r;
      assert report[i] in report;
    }
  }

  /** The overload flags of a plan are exactly the cells whose existing and planned hours
      together exceed the day's capacity. Only for a cell of negative capacity without any hours
      the flag is left open. */
  lemma FlagsExact(req: PlanRequest, calendar: WeekendCalendar, plan: PlanResult, person: Id, day: Date)
    requires Schedulable(req) && IsPlan(req, calendar, plan) && DistinctTasks(req.tasks)
    ensures var base := MakeTeam(req.people, calendar, req.dayOverrides).BaseCapacity(person, day);
            var hours := HoursOn(req.existing + Flatten(plan.assignments), person, day);
            && (Flagged(plan, person, day) ==> base < hours)
            && (base < hours && (0 <= base || hours != 0) ==> Flagged(plan, person, day))
  {
    var order :| IsPlanAlong(req, calendar, order, plan);
    var team := MakeTeam(req.people, calendar, req.dayOverrides);
    var st := RunOrder(req, team, Dag(req.tasks, req.dependencies).edges, order);
    var report :| IsOverloadReport(team, st.ledger, report) &&
                  plan.risks == OverloadFlags(report) + DeadlineFlags(req.deadline, plan.endDate);
    IndexIsSum(req, calendar, order, plan, person, day);
    FlagsOfReport(report, person, day);
    KindsDiffer();
    assert Flagged(plan, person, day) <==> exists r :: r in OverloadFlags(report) && IsOverloadOf(r, person, day);
  }

  /** No cell is flagged twice. */
  lemma FlaggedOnce(req: PlanRequest, calendar: WeekendCalendar, plan: PlanResult, i: nat, j: nat, person: Id, day: Date)
    requires Schedulable(req) && IsPlan(req, calendar, plan)
    requires i < |plan.risks| && j < |plan.risks|
    requires IsOverloadOf(plan.risks[i], person, day) && IsOverloadOf(plan.risks[j], person, day)
    ensures i == j
  {
    KindsDiffer();
  }
}
