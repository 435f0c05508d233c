/** A lower bound for every plan that follows the links as the scheduler does: along a path of
    dependencies each task waits for its link, start or end, with its lag. Unlike the critical path
    it holds for every request. */
module Release {
  import opened Calendar
  import opened Models
  import opened Capacity
  import opened Graph
  import opened Allocators
  import opened Solver
  import opened Shapes
  import opened Plans
  import opened CriticalPath
  import opened LowerBound

  datatype Span = Span(start: Date, end: Date)

  /** A link only looks at the dates of its predecessor. */
  function After(calendar: WeekendCalendar, e: Edge, s: Span): Date {
    LinkDate(calendar, e, Assignment(e.src, 0, s.start, s.end, []))
  }

  function Later(a: Date, b: Date): Date {
    if a < b then b else a
  }

  /** The dates before which the last task of a path cannot start and end, when each task takes at
      least its `days`. A fixed task has the dates it has. */
  function EarliestSpan(req: PlanRequest, calendar: WeekendCalendar, days: Id -> nat, w: seq<Id>): Span
    requires w != [] && forall n :: n in w ==> 1 <= days(n)
  {
    var v := w[|w| - 1];
    var task := TaskById(req.tasks, v);
    if task.Some? && IsFixed(task.value) then
      Span(FixedAssignment(task.value).startDate, FixedAssignment(task.value).endDate)
    else
      var start :=
        if |w| == 1 then calendar.FirstFrom(req.horizonStart)
        else
          var e := LastEdge(req.dependencies, w[|w| - 2], v);
          var before := EarliestSpan(req, calendar, days, w[..|w| - 1]);
          if e.None? then calendar.FirstFrom(req.horizonStart)
          else calendar.FirstFrom(Later(req.horizonStart, After(calendar, e.value, before)));
      Span(start, calendar.Nth(start, days(v)))
  }

  // Links ------------------------------------------------------------------------

  lemma AfterMonotone(calendar: WeekendCalendar, e: Edge, s: Span, a: Assignment)
    requires s.start <= a.startDate && s.end <= a.endDate
    ensures After(calendar, e, s) <= LinkDate(calendar, e, a)
  {
    hide WeekendCalendar.Nth, WeekendCalendar.FirstFrom, WeekendCalendar.IsWorkingDay;
    if e.link == FS {
      WaitMonotone(calendar, 0, s.end + 1, a.endDate + 1);
      WaitMonotone(calendar, e.lag, calendar.FirstFrom(s.end + 1), calendar.FirstFrom(a.endDate + 1));
    } else {
      WaitMonotone(calendar, e.lag, s.start, a.startDate);
    }
  }

  lemma WaitMonotone(calendar: WeekendCalendar, lag: int, a: Date, b: Date)
    requires a <= b
    ensures 0 < lag ==> calendar.Nth(a, lag) <= calendar.Nth(b, lag)
    ensures calendar.FirstFrom(a) <= calendar.FirstFrom(b)
  {
    if 0 < lag {
      calendar.NthMonotoneInStart(a, b, lag);
    }
    calendar.NthMonotoneInStart(a, b, 1);
  }

  // The bound --------------------------------------------------------------------

  /** Every task that is not fixed takes at least its days in the plan. */
  ghost predicate TakesDays(req: PlanRequest, calendar: WeekendCalendar, plan: PlanResult, days: Id -> nat) {
    forall b :: b in plan.assignments && !HasFixedId(req.tasks, b.taskId) ==>
      && req.horizonStart <= b.startDate <= b.endDate
      && calendar.IsWorkingDay(b.startDate) && calendar.IsWorkingDay(b.endDate)
      && days(b.taskId) <= calendar.BusinessDays(b.startDate, b.endDate + 1)
  }

  lemma EndFollows(calendar: WeekendCalendar, from: Date, start: Date, end: Date, n: nat)
    requires 1 <= n && from <= start <= end && calendar.IsWorkingDay(end)
    requires n <= calendar.BusinessDays(start, end + 1)
    ensures calendar.Nth(from, n) <= end
  {
    calendar.BusinessDaysAdditive(from, start, end + 1);
    calendar.AtLeastNth(from, n, end);
  }

  lemma FixedSpan(req: PlanRequest, calendar: WeekendCalendar, plan: PlanResult, b: Assignment)
    requires Schedulable(req) && IsPlan(req, calendar, plan) && DistinctTasks(req.tasks)
    requires b in plan.assignments && TaskById(req.tasks, b.taskId).Some? && IsFixed(TaskById(req.tasks, b.taskId).value)
    ensures b == FixedAssignment(TaskById(req.tasks, b.taskId).value)
  {
    var t := TaskById(req.tasks, b.taskId).value;
    TaskByIdIsTask(req.tasks, b.taskId);
    FixedTasksStay(req, calendar, plan, t);
    UniqueAssignment(req, calendar, plan, FixedAssignment(t), b);
  }

  lemma FixedById(tasks: seq<Task>, id: Id)
    requires DistinctTasks(tasks) && HasFixedId(tasks, id)
    ensures TaskById(tasks, id).Some? && IsFixed(TaskById(tasks, id).value)
  {
    TaskByIdIsTask(tasks, id);
    var t :| t in tasks && IsFixed(t) && t.id == id;
    SameTask(tasks, t, TaskById(tasks, id).value);
  }

  /** A task that starts where its path allows ends where its path allows. */
  lemma UnfixedSpan(req: PlanRequest, calendar: WeekendCalendar, plan: PlanResult, days: Id -> nat, b: Assignment, from: Date)
    requires TakesDays(req, calendar, plan, days)
    requires b in plan.assignments && !HasFixedId(req.tasks, b.taskId) && 1 <= days(b.taskId)
    requires from <= b.startDate
    ensures calendar.FirstFrom(from) <= b.startDate
    ensures calendar.Nth(calendar.FirstFrom(from), days(b.taskId)) <= b.endDate
  {
    EndFollows(calendar, calendar.FirstFrom(from), b.startDate, b.endDate, days(b.taskId));
  }

  /** No task of a plan starts or ends before its path of dependencies allows. */
  lemma {:induction false} PathBound(req: PlanRequest, calendar: WeekendCalendar, plan: PlanResult, days: Id -> nat,
                                     w: seq<Id>, b: Assignment)
    requires Schedulable(req) && IsPlan(req, calendar, plan) && DistinctTasks(req.tasks)
    requires TakesDays(req, calendar, plan, days)
    requires Dag(req.tasks, req.dependencies).IsWalk(w)
    requires forall n :: n in w ==> 1 <= days(n) && IsTaskId(req.tasks, n)
    requires b in plan.assignments && b.taskId == w[|w| - 1]
    ensures EarliestSpan(req, calendar, days, w).start <= b.startDate
    ensures EarliestSpan(req, calendar, days, w).end <= b.endDate
    decreases |w|
  {
    hide IsPlan, LinkDate, Dag, LastEdge, WeekendCalendar.Nth, WeekendCalendar.FirstFrom;
    var v := w[|w| - 1];
    var task := TaskById(req.tasks, v);
    if task.Some? && IsFixed(task.value) {
      FixedSpan(req, calendar, plan, b);
    } else {
      if HasFixedId(req.tasks, v) {
        FixedById(req.tasks, v);
      }
      assert v in w;
      if |w| == 1 {
        UnfixedSpan(req, calendar, plan, days, b, req.horizonStart);
      } else {
        var init := w[..|w| - 1];
        WalkInit(Dag(req.tasks, req.dependencies), w);
        var u := w[|w| - 2];
        assert u in w;
        var a := AssignmentFor(req, calendar, plan, u);
        PathBound(req, calendar, plan, days, init, a);
        LinkBound(req, calendar, plan, EarliestSpan(req, calendar, days, init), a, b);
        LinkedByLast(req.tasks, req.dependencies, u, v);
        UnfixedSpan(req, calendar, plan, days, b,
                    Later(req.horizonStart, After(calendar, LastEdge(req.dependencies, u, v).value,
                                                  EarliestSpan(req, calendar, days, init))));
      }
    }
  }

  lemma LinkBound(req: PlanRequest, calendar: WeekendCalendar, plan: PlanResult, s: Span, a: Assignment, b: Assignment)
    requires Schedulable(req) && IsPlan(req, calendar, plan) && DistinctTasks(req.tasks)
    requires a in plan.assignments && b in plan.assignments && !HasFixedId(req.tasks, b.taskId)
    requires Dag(req.tasks, req.dependencies).Linked(a.taskId, b.taskId)
    requires s.start <= a.startDate && s.end <= a.endDate
    ensures LastEdge(req.dependencies, a.taskId, b.taskId).Some?
    ensures After(calendar, LastEdge(req.dependencies, a.taskId, b.taskId).value, s) <= b.startDate
    ensures req.horizonStart <= b.startDate
  {
    hide IsPlan, LinkDate;
    LinkedByLast(req.tasks, req.dependencies, a.taskId, b.taskId);
    LastEdgeEnds(req.dependencies, a.taskId, b.taskId);
    var e := LastEdge(req.dependencies, a.taskId, b.taskId).value;
    LinkKept(req, calendar, plan, e, a, b);
    AfterMonotone(calendar, e, s, a);
    HoursConserved(req, calendar, plan, b);
  }

  /** So no plan ends before any of its paths, and a deadline before one is reported missed. */
  lemma NotBeforePath(req: PlanRequest, calendar: WeekendCalendar, plan: PlanResult, days: Id -> nat, w: seq<Id>)
    requires Schedulable(req) && IsPlan(req, calendar, plan) && DistinctTasks(req.tasks)
    requires TakesDays(req, calendar, plan, days)
    requires Dag(req.tasks, req.dependencies).IsWalk(w)
    requires forall n :: n in w ==> 1 <= days(n) && IsTaskId(req.tasks, n)
    ensures plan.endDate.Some? && EarliestSpan(req, calendar, days, w).end <= plan.endDate.value
    ensures req.deadline.Some? && req.deadline.value < EarliestSpan(req, calendar, days, w).end ==> MissesDeadline(plan)
  {
    assert w[|w| - 1] in w;
    var b := AssignmentFor(req, calendar, plan, w[|w| - 1]);
    PathBound(req, calendar, plan, days, w, b);
    LatestIsMax(plan.assignments);
    DeadlineFlagExact(req, calendar, plan);
  }

  // Every request ------------------------------------------------------------------

  /** What a task takes whatever its people can do: a window its span, anything else a day. */
  function LeastDays(req: PlanRequest, id: Id): (days: nat)
    ensures 1 <= days
  {
    match TaskById(req.tasks, id)
    case None => 1
    case Some(task) => if task.isWindow then WindowSpan(task.durationHours) else 1
  }

  lemma LeastTurnDays(req: PlanRequest, team: Team, edges: seq<Edge>, before: Progress, task: Task)
    requires req.people != [] && (task.isSplittable ==> 1 <= task.durationHours)
    ensures var p := ChoiceFor(req, team, edges, before, task).placement;
            (if task.isWindow then WindowSpan(task.durationHours) else 1) <= team.calendar.BusinessDays(p.start, p.end + 1)
  {
    var est := EarliestStart(team.calendar, edges, task.id, before.placed, req.horizonStart);
    var p := ChoiceFor(req, team, edges, before, task).placement;
    TurnShape(req, team, edges, before, task);
    team.calendar.CountMonotone(p.start, p.start + 1, p.end + 1);
    if task.isWindow {
      WindowShape(team.calendar, task.durationHours, est);
    } else {
      hide PlaceTask;
      assert team.calendar.BusinessDays(p.start, p.start) == 0;
    }
  }

  lemma LeastDaysTaken(req: PlanRequest, calendar: WeekendCalendar, plan: PlanResult)
    requires Schedulable(req) && IsPlan(req, calendar, plan) && DistinctTasks(req.tasks)
    ensures TakesDays(req, calendar, plan, (id: Id) => LeastDays(req, id))
  {
    hide ChoiceFor;
    var order :| IsPlanAlong(req, calendar, order, plan);
    var team := MakeTeam(req.people, calendar, req.dayOverrides);
    var edges := Dag(req.tasks, req.dependencies).edges;
    forall b | b in plan.assignments && !HasFixedId(req.tasks, b.taskId)
      ensures req.horizonStart <= b.startDate <= b.endDate
      ensures calendar.IsWorkingDay(b.startDate) && calendar.IsWorkingDay(b.endDate)
      ensures LeastDays(req, b.taskId) <= calendar.BusinessDays(b.startDate, b.endDate + 1)
    {
      var task, k := AssignmentOrigin(req, calendar, order, plan, b);
      LeastTurnDays(req, team, edges, RunOrder(req, team, edges, order[..k]), task);
      HoursConserved(req, calendar, plan, b);
    }
  }

  /** For every request without double ids: no plan ends before the links along any of its paths
      allow, and a deadline before that is always reported missed. */
  lemma EveryPathBounds(req: PlanRequest, calendar: WeekendCalendar, plan: PlanResult, w: seq<Id>)
    requires Schedulable(req) && IsPlan(req, calendar, plan) && DistinctTasks(req.tasks)
    requires Dag(req.tasks, req.dependencies).IsWalk(w) && forall n :: n in w ==> IsTaskId(req.tasks, n)
    ensures var end := EarliestSpan(req, calendar, (id: Id) => LeastDays(req, id), w).end;
            && plan.endDate.Some? && end <= plan.endDate.value
            && (req.deadline.Some? && req.deadline.value < end ==> MissesDeadline(plan))
  {
    LeastDaysTaken(req, calendar, plan);
    NotBeforePath(req, calendar, plan, (id: Id) => LeastDays(req, id), w);
  }

  // With day norms -------------------------------------------------------------------

  /** Where the plan keeps within the day norms, tasks take their full duration, and the bound
      needs no condition on the links. */
  lemma NormPathBounds(req: PlanRequest, calendar: WeekendCalendar, plan: PlanResult, w: seq<Id>)
    requires Schedulable(req) && IsPlan(req, calendar, plan) && DistinctTasks(req.tasks)
    requires NothingFixed(req) && WindowsWithinNorm(req) && PlanWithinNorms(req, plan)
    requires Dag(req.tasks, req.dependencies).IsWalk(w) && forall n :: n in w ==> IsTaskId(req.tasks, n)
    ensures forall n :: n in w ==> 1 <= WorkDays(req, n)
    ensures var end := EarliestSpan(req, calendar, (id: Id) => WorkDays(req, id), w).end;
            && plan.endDate.Some? && end <= plan.endDate.value
            && (req.deadline.Some? && req.deadline.value < end ==> MissesDeadline(plan))
  {
    forall n | n in w ensures 1 <= WorkDays(req, n) {
      TaskByIdIsTask(req.tasks, n);
    }
    forall b | b in plan.assignments && !HasFixedId(req.tasks, b.taskId)
      ensures req.horizonStart <= b.startDate <= b.endDate
      ensures calendar.IsWorkingDay(b.startDate) && calendar.IsWorkingDay(b.endDate)
      ensures WorkDays(req, b.taskId) <= calendar.BusinessDays(b.startDate, b.endDate + 1)
    {
      AssignmentSpan(req, calendar, plan, b);
      HoursConserved(req, calendar, plan, b);
    }
    NotBeforePath(req, calendar, plan, (id: Id) => WorkDays(req, id), w);
  }

  /** What the last task adds to the working days of a path. */
  lemma SpanAdds(calendar: WeekendCalendar, from: Date, mid: Date, start: Date, n: nat)
    requires 1 <= n && from <= mid <= start
    ensures start <= calendar.Nth(start, n) && calendar.IsWorkingDay(calendar.Nth(start, n))
    ensures calendar.BusinessDays(from, mid) + n <= calendar.BusinessDays(from, calendar.Nth(start, n) + 1)
  {
    var end := calendar.Nth(start, n);
    calendar.NthCount(start, n);
    calendar.BusinessDaysAdditive(from, mid, start);
    calendar.BusinessDaysAdditive(from, start, end + 1);
  }

  lemma UnfixedStep(req: PlanRequest, calendar: WeekendCalendar, days: Id -> nat, w: seq<Id>)
    requires NothingFixed(req) && 2 <= |w| && forall n :: n in w ==> 1 <= days(n)
    requires LastEdge(req.dependencies, w[|w| - 2], w[|w| - 1]).Some?
    ensures var s := EarliestSpan(req, calendar, days, w);
            var e := LastEdge(req.dependencies, w[|w| - 2], w[|w| - 1]).value;
            && s.start == calendar.FirstFrom(Later(req.horizonStart, After(calendar, e, EarliestSpan(req, calendar, days, w[..|w| - 1]))))
            && s.end == calendar.Nth(s.start, days(w[|w| - 1]))
  {
    TaskByIdIsTask(req.tasks, w[|w| - 1]);
  }

  lemma FirstStep(req: PlanRequest, calendar: WeekendCalendar, days: Id -> nat, w: seq<Id>)
    requires NothingFixed(req) && |w| == 1 && 1 <= days(w[0])
    ensures var s := EarliestSpan(req, calendar, days, w);
            s.start == calendar.FirstFrom(req.horizonStart) && s.end == calendar.Nth(s.start, days(w[0]))
    ensures Weight(req, w) == WorkDays(req, w[0])
    ensures calendar.BusinessDays(req.horizonStart, req.horizonStart) == 0
  {
    TaskByIdIsTask(req.tasks, w[0]);
    assert w[..0] == [];
  }

  /** Where all links wait for the end, this bound is at least the critical path's. */
  lemma {:induction false} CoversCriticalPath(req: PlanRequest, calendar: WeekendCalendar, days: Id -> nat, w: seq<Id>)
    requires EndLinksOnly(req) && NothingFixed(req)
    requires Dag(req.tasks, req.dependencies).IsWalk(w)
    requires forall n :: n in w ==> 1 <= days(n) == WorkDays(req, n)
    ensures var s := EarliestSpan(req, calendar, days, w);
            && req.horizonStart <= s.start <= s.end && calendar.IsWorkingDay(s.end)
            && Weight(req, w) <= calendar.BusinessDays(req.horizonStart, s.end + 1)
    decreases |w|
  {
    hide After, EarliestSpan, WorkDays, Dag, LastEdge, WeekendCalendar.Nth, WeekendCalendar.BusinessDays;
    hide WeekendCalendar.FirstFrom, WeekendCalendar.IsWorkingDay;
    var v := w[|w| - 1];
    var s := EarliestSpan(req, calendar, days, w);
    assert v in w;
    if |w| == 1 {
      FirstStep(req, calendar, days, w);
      SpanAdds(calendar, req.horizonStart, req.horizonStart, s.start, days(v));
    } else {
      var init, u := w[..|w| - 1], w[|w| - 2];
      WalkInit(Dag(req.tasks, req.dependencies), w);
      assert forall n :: n in init ==> n in w;
      CoversCriticalPath(req, calendar, days, init);
      LinkedByLast(req.tasks, req.dependencies, u, v);
      LastEdgeIsFS(req.dependencies, u, v);
      UnfixedStep(req, calendar, days, w);
      var before := EarliestSpan(req, calendar, days, init);
      AfterEnd(calendar, LastEdge(req.dependencies, u, v).value, before);
      SpanAdds(calendar, req.horizonStart, before.end + 1, s.start, days(v));
    }
  }

  lemma AfterEnd(calendar: WeekendCalendar, e: Edge, s: Span)
    requires e.link == FS
    ensures s.end < After(calendar, e, s)
  {
  }
}
