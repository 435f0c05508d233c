/** Requests with one task and no dependency. Their plans are what the choice at the only turn
    makes of them, which is how the limits of the general results are shown on concrete input. */
module SingleTask {
  import opened Wrappers
  import opened Calendar
  import opened Models
  import opened Capacity
  import opened Graph
  import opened Allocators
  import opened Solver
  import opened CriticalPath

  ghost predicate IsSingle(req: PlanRequest, task: Task) {
    && req.tasks == [task] && req.dependencies == [] && req.people != []
    && (task.isSplittable ==> 1 <= task.durationHours)
  }

  lemma SingleDag(task: Task)
    ensures Dag([task], []) == DiGraph([task.id], [])
    ensures DiGraph([task.id], []).IsTopologicalOrder([task.id])
  {
    assert [task][..0] == [];
    assert TaskNodes([task]) == AddNode(DiGraph([], []), task.id);
  }

  lemma SingleStart(req: PlanRequest, task: Task)
    requires IsSingle(req, task)
    ensures Schedulable(req) && TaskById(req.tasks, task.id) == Some(task)
    ensures PrePlaced(req.tasks, req.existing) ==
            if IsFixed(task) then
              Progress(map[task.id := FixedAssignment(task)], req.existing + FixedAssignment(task).allocations, [])
            else Progress(map[], req.existing, [])
  {
    assert [task][..0] == [];
    assert PrePlaced([], req.existing) == Progress(map[], req.existing, []);
  }

  /** The choice at the only turn. */
  ghost function SingleChoice(req: PlanRequest, calendar: WeekendCalendar, task: Task): Choice
    requires IsSingle(req, task)
  {
    PlaceTask(req.people, MakeTeam(req.people, calendar, req.dayOverrides), req.existing, task,
              req.horizonStart, req.horizonStart + HORIZON_DAYS)
  }

  ghost function SingleAssignment(req: PlanRequest, calendar: WeekendCalendar, task: Task): Assignment
    requires IsSingle(req, task)
  {
    if IsFixed(task) then FixedAssignment(task) else ToAssignment(task.id, SingleChoice(req, calendar, task))
  }

  lemma SingleRun(req: PlanRequest, calendar: WeekendCalendar, task: Task)
    requires IsSingle(req, task)
    ensures var st := RunOrder(req, MakeTeam(req.people, calendar, req.dayOverrides), [], [task.id]);
            && st.placed == map[task.id := SingleAssignment(req, calendar, task)]
            && st.ledger == req.existing + SingleAssignment(req, calendar, task).allocations
            && st.dumps == if IsFixed(task) then [] else SingleChoice(req, calendar, task).placement.dumped
  {
    hide PlaceTask, PrePlaced, TaskById, MakeTeam;
    var team := MakeTeam(req.people, calendar, req.dayOverrides);
    SingleStart(req, task);
    assert [task.id][..0] == [];
    var start := PrePlaced(req.tasks, req.existing);
    assert RunOrder(req, team, [], []) == start;
    assert EarliestStart(calendar, [], task.id, start.placed, req.horizonStart) == req.horizonStart;
  }

  // A report always exists ----------------------------------------------------------

  /** The overloaded cells among those of the first `k` entries, each once. */
  ghost function ReportUpTo(team: Team, ledger: seq<DayAllocation>, k: nat): seq<Overload>
    requires k <= |ledger|
  {
    if k == 0 then []
    else
      var init, a := ReportUpTo(team, ledger, k - 1), ledger[k - 1];
      var o := Overload(Cell(a.person, a.day), HoursOn(ledger, a.person, a.day), team.BaseCapacity(a.person, a.day));
      if o.base < o.used && o !in init then init + [o] else init
  }

  lemma {:induction false} ReportUpToExact(team: Team, ledger: seq<DayAllocation>, k: nat)
    requires k <= |ledger|
    ensures var report := ReportUpTo(team, ledger, k);
            && (forall o :: o in report ==>
                  && o.used == HoursOn(ledger, o.cell.person, o.cell.day)
                  && o.base == team.BaseCapacity(o.cell.person, o.cell.day)
                  && o.base < o.used)
            && (forall i :: 0 <= i < k && team.BaseCapacity(ledger[i].person, ledger[i].day) <
                                          HoursOn(ledger, ledger[i].person, ledger[i].day) ==>
                  exists o :: o in report && o.cell == Cell(ledger[i].person, ledger[i].day))
            && (forall i, j :: 0 <= i < j < |report| ==> report[i].cell != report[j].cell)
  {
    if 0 < k {
      ReportUpToExact(team, ledger, k - 1);
    }
  }

  lemma ReportExists(team: Team, ledger: seq<DayAllocation>) returns (report: seq<Overload>)
    ensures IsOverloadReport(team, ledger, report)
  {
    report := ReportUpTo(team, ledger, |ledger|);
    ReportUpToExact(team, ledger, |ledger|);
    forall p, d | team.BaseCapacity(p, d) < HoursOn(ledger, p, d) && HoursOn(ledger, p, d) != 0
      ensures exists o :: o in report && o.cell == Cell(p, d)
    {
      if forall a :: a in ledger ==> a.person != p || a.day != d {
        HoursOnAbsent(ledger, p, d);
      }
      var a :| a in ledger && a.person == p && a.day == d;
      var i :| 0 <= i < |ledger| && ledger[i] == a;
    }
  }

  // The plan --------------------------------------------------------------------------

  /** The one task's assignment, and the flags it calls for. */
  ghost function SinglePlan(req: PlanRequest, a: Assignment, report: seq<Overload>): PlanResult {
    PlanResult([a], OverloadFlags(report) + DeadlineFlags(req.deadline, Some(a.endDate)), Some(a.endDate))
  }

  lemma SingleIsPlan(req: PlanRequest, calendar: WeekendCalendar, task: Task, report: seq<Overload>)
    requires IsSingle(req, task)
    requires IsOverloadReport(MakeTeam(req.people, calendar, req.dayOverrides),
                              req.existing + SingleAssignment(req, calendar, task).allocations, report)
    ensures Schedulable(req)
    ensures IsPlanAlong(req, calendar, [task.id], SinglePlan(req, SingleAssignment(req, calendar, task), report))
    ensures IsPlan(req, calendar, SinglePlan(req, SingleAssignment(req, calendar, task), report))
  {
    hide PlaceTask, RunOrder, Dag, MakeTeam, IsOverloadReport, Ordered, LatestEnd, OverloadFlags, DeadlineFlags, SingleAssignment;
    var a := SingleAssignment(req, calendar, task);
    SingleDag(task);
    SingleStart(req, task);
    SingleRun(req, calendar, task);
    SingleCollected(task.id, a);
    assert IsPlanAlong(req, calendar, [task.id], SinglePlan(req, a, report));
  }

  lemma SingleCollected(id: Id, a: Assignment)
    ensures Ordered([id], map[id := a]) == [a]
    ensures LatestEnd([a]) == Some(a.endDate)
  {
    assert [id][..0] == [] && [a][..0] == [];
    assert Ordered([id], map[id := a]) == [] + [a];
  }

  /** Every request with one task has a plan; it ends with the task. */
  lemma SinglePlanExists(req: PlanRequest, calendar: WeekendCalendar, task: Task) returns (plan: PlanResult)
    requires IsSingle(req, task)
    ensures Schedulable(req) && IsPlanAlong(req, calendar, [task.id], plan) && IsPlan(req, calendar, plan)
    ensures plan.assignments == [SingleAssignment(req, calendar, task)]
    ensures plan.endDate == Some(SingleAssignment(req, calendar, task).endDate)
  {
    var a := SingleAssignment(req, calendar, task);
    var report := ReportExists(MakeTeam(req.people, calendar, req.dayOverrides), req.existing + a.allocations);
    SingleIsPlan(req, calendar, task, report);
    plan := SinglePlan(req, a, report);
  }

  /** The longest path has at least the task's own days. */
  lemma SingleLongest(req: PlanRequest, task: Task, m: nat)
    requires IsSingle(req, task) && IsLongest(req, Dag(req.tasks, req.dependencies), m)
    ensures DurationDays(req.people, task) <= m
  {
    SingleDag(task);
    SingleStart(req, task);
    var g, w := DiGraph([task.id], []), [task.id];
    assert w[..0] == [] && g.IsWalk(w);
    assert Weight(req, w) == DurationDays(req.people, task);
  }
}
