/** Committed payloads read back as load for the next solve (`build_add_project_reply` in
    src/planner/bot/handlers/task_router.py) and as tasks to solve again
    (`_reconstruct_request` in src/planner/bot/handlers/replan.py). */
module Replan {
  import opened Wrappers
  import opened Calendar
  import opened Models
  import opened Graph
  import opened Allocators
  import opened Solver
  import opened Shapes
  import opened Plans
  import opened Overloads
  import opened Booking
  import opened Codec
  import opened Weights

  // Existing load -----------------------------------------------------------------

  function GatheredLoad(payloads: seq<Json>): Option<seq<DayAllocation>> {
    if payloads == [] then Some([])
    else
      var init, last := GatheredLoad(payloads[..|payloads| - 1]), Allocations(payloads[|payloads| - 1]);
      if init.Some? && last.Some? then Some(init.value + last.value) else None
  }

  method GatherLoad(payloads: seq<Json>) returns (r: Option<seq<DayAllocation>>)
    ensures r == GatheredLoad(payloads)
  {
    var existing: seq<DayAllocation> := [];
    for i := 0 to |payloads|
      invariant GatheredLoad(payloads[..i]) == Some(existing)
    {
      assert payloads[..i + 1][..i] == payloads[..i];
      var allocs := DeserializeAllocations(payloads[i]);
      if allocs.None? {
        GatherStops(payloads, i);
        return None;
      }
      existing := existing + allocs.value;
    }
    assert payloads[..|payloads|] == payloads;
    r := Some(existing);
  }

  lemma {:induction false} GatherStops(payloads: seq<Json>, i: nat)
    requires i < |payloads| && Allocations(payloads[i]).None?
    ensures GatheredLoad(payloads).None?
  {
    if i < |payloads| - 1 {
      GatherStops(payloads[..|payloads| - 1], i);
    }
  }

  /** The load gathered from the stored payloads is the load of the plans that were stored. */
  lemma {:induction false} GatheredIsLoad(plans: map<Id, PlanResult>, listed: seq<Id>, payloads: seq<Json>)
    requires |payloads| == |listed|
    requires forall i :: 0 <= i < |listed| ==>
               listed[i] in plans && Storable(plans[listed[i]]) && payloads[i] == SerializePlan(plans[listed[i]])
    ensures GatheredLoad(payloads) == Some(LoadOf(plans, listed))
  {
    if listed != [] {
      var n := |listed| - 1;
      GatheredIsLoad(plans, listed[..n], payloads[..n]);
      PlanRoundTrip(plans[listed[n]]);
      AllocationsFlattenPlan(payloads[n]);
    }
  }

  // Reconstruction ------------------------------------------------------------------

  /** The sum of a list of hours; an entry without hours cannot be read. */
  function SumOfHours(items: seq<Json>): Option<int> {
    if items == [] then Some(0)
    else
      var init, last := SumOfHours(items[..|items| - 1]), ReadNumber(Field(items[|items| - 1], "hours"));
      if init.Some? && last.Some? then Some(init.value + last.value) else None
  }

  function ReplanTask(id: Id, names: map<Id, string>, hours: int, person: Id): Task {
    Task(id, if id in names then names[id] else "task", hours, [person], None, false, NoPair, false,
         NotDone, BotFormed, None, None, None)
  }

  /** The task of one stored assignment, none for a row that works no hours; `None` outside
      stands for a row that cannot be read. */
  function RowTask(row: Json, names: map<Id, string>): Option<Option<Task>> {
    var id := ReadUuid(Field(row, "task_id"));
    var items := ReadArrayOrEmpty(Field(row, "allocations"));
    var hours := if items.Some? then SumOfHours(items.value) else None;
    if id.None? || hours.None? then None
    else if hours.value == 0 then Some(None)
    else
      var person := ReadUuid(Field(row, "person_id"));
      if person.None? then None else Some(Some(ReplanTask(id.value, names, hours.value, person.value)))
  }

  function RowTasks(rows: seq<Json>, names: map<Id, string>): Option<seq<Task>> {
    if rows == [] then Some([])
    else
      var init, last := RowTasks(rows[..|rows| - 1], names), RowTask(rows[|rows| - 1], names);
      if init.None? || last.None? then None
      else if last.value.None? then init
      else Some(init.value + [last.value.value])
  }

  function PayloadTasks(payload: Json, names: map<Id, string>): Option<seq<Task>> {
    if !payload.Obj? then None
    else
      var rows := ReadArrayOrEmpty(Field(payload, "assignments"));
      if rows.Some? then RowTasks(rows.value, names) else None
  }

  function AllTasks(payloads: seq<Json>, names: map<Id, string>): Option<seq<Task>> {
    if payloads == [] then Some([])
    else
      var init, last := AllTasks(payloads[..|payloads| - 1], names), PayloadTasks(payloads[|payloads| - 1], names);
      if init.Some? && last.Some? then Some(init.value + last.value) else None
  }

  function Within(deps: seq<Dependency>, ids: set<Id>): seq<Dependency> {
    if deps == [] then []
    else
      var init, d := Within(deps[..|deps| - 1], ids), deps[|deps| - 1];
      if d.taskId in ids && d.dependsOn in ids then init + [d] else init
  }

  function IdsOf(tasks: seq<Task>): set<Id> {
    set t | t in tasks :: t.id
  }

  datatype ReplanError = NothingToReplan | Unreadable

  /** People, the tasks of the committed plans, the dependencies among them and the current
      overrides; no existing load and no deadline. */
  function ReplanRequest(people: seq<Person>, tasks: seq<Task>, deps: seq<Dependency>,
                         overrides: seq<DayOverride>, today: Date): PlanRequest
  {
    PlanRequest(people, tasks, Within(deps, IdsOf(tasks)), today, overrides, [], None)
  }

  method ReconstructRequest(people: seq<Person>, payloads: seq<Json>, names: map<Id, string>,
                            deps: seq<Dependency>, overrides: seq<DayOverride>, today: Date)
    returns (r: Result<PlanRequest, ReplanError>)
    ensures people == [] ==> r == Failure(NothingToReplan)
    ensures people != [] ==>
              var tasks := AllTasks(payloads, names);
              r == if tasks.None? then Failure(Unreadable)
                   else if tasks.value == [] then Failure(NothingToReplan)
                   else Success(ReplanRequest(people, tasks.value, deps, overrides, today))
    ensures r.Success? ==>
              && r.value.people == people && r.value.dayOverrides == overrides && r.value.horizonStart == today
              && r.value.existing == [] && r.value.deadline == None
              && (exists at :: KeptAt(deps, r.value.tasks, r.value.dependencies, at))
  {
    if people == [] {
      return Failure(NothingToReplan);
    }
    var tasks: seq<Task> := [];
    var taskIds: set<Id> := {};
    for i := 0 to |payloads|
      invariant AllTasks(payloads[..i], names) == Some(tasks)
      invariant taskIds == IdsOf(tasks)
    {
      assert payloads[..i + 1][..i] == payloads[..i];
      var more := CollectTasks(payloads[i], names);
      if more.None? {
        TasksStop(payloads, names, i);
        return Failure(Unreadable);
      }
      tasks := tasks + more.value;
      taskIds := taskIds + IdsOf(more.value);
    }
    assert payloads[..|payloads|] == payloads;
    if tasks == [] {
      return Failure(NothingToReplan);
    }
    r := Success(PlanRequest(people, tasks, Within(deps, taskIds), today, overrides, [], None));
    ghost var at := WithinKept(deps, tasks);
  }

  ghost predicate IsOneOf(tasks: seq<Task>, id: Id) {
    exists t :: t in tasks && t.id == id
  }

  /** `kept` are the dependencies both of whose ends are tasks, at the positions `at`, in order. */
  ghost predicate KeptAt(deps: seq<Dependency>, tasks: seq<Task>, kept: seq<Dependency>, at: seq<int>) {
    && |at| == |kept|
    && (forall a :: 0 <= a < |at| ==> 0 <= at[a] < |deps| && deps[at[a]] == kept[a])
    && (forall a, b :: 0 <= a < b < |at| ==> at[a] < at[b])
    && (forall i :: 0 <= i < |deps| ==>
          (i in at <==> IsOneOf(tasks, deps[i].taskId) && IsOneOf(tasks, deps[i].dependsOn)))
  }

  lemma {:induction false} WithinKept(deps: seq<Dependency>, tasks: seq<Task>) returns (at: seq<int>)
    ensures KeptAt(deps, tasks, Within(deps, IdsOf(tasks)), at)
  {
    if deps == [] {
      at := [];
    } else {
      var n := |deps| - 1;
      var init := WithinKept(deps[..n], tasks);
      assert forall id :: id in IdsOf(tasks) <==> IsOneOf(tasks, id);
      at := if deps[n].taskId in IdsOf(tasks) && deps[n].dependsOn in IdsOf(tasks) then init + [n] else init;
      KeepLast(deps, tasks, Within(deps[..n], IdsOf(tasks)), init);
    }
  }

  lemma KeepLast(deps: seq<Dependency>, tasks: seq<Task>, kept: seq<Dependency>, at: seq<int>)
    requires deps != [] && KeptAt(deps[..|deps| - 1], tasks, kept, at)
    ensures var d := deps[|deps| - 1];
            if IsOneOf(tasks, d.taskId) && IsOneOf(tasks, d.dependsOn)
            then KeptAt(deps, tasks, kept + [d], at + [|deps| - 1])
            else KeptAt(deps, tasks, kept, at)
  {
    var n := |deps| - 1;
    assert forall i :: 0 <= i < n ==> deps[..n][i] == deps[i];
    assert forall i :: i in at + [n] <==> i in at || i == n;
    assert n !in at;
  }

  /** The inner loop over the assignments of one payload. */
  method CollectTasks(payload: Json, names: map<Id, string>) returns (r: Option<seq<Task>>)
    ensures r == PayloadTasks(payload, names)
  {
    var rows := ReadArrayOrEmpty(Field(payload, "assignments"));
    if !payload.Obj? || rows.None? {
      return None;
    }
    var tasks: seq<Task> := [];
    for i := 0 to |rows.value|
      invariant RowTasks(rows.value[..i], names) == Some(tasks)
    {
      assert rows.value[..i + 1][..i] == rows.value[..i];
      var task := RowTask(rows.value[i], names);
      if task.None? {
        RowTasksStop(rows.value, names, i);
        return None;
      }
      if task.value.Some? {
        tasks := tasks + [task.value.value];
      }
    }
    assert rows.value[..|rows.value|] == rows.value;
    r := Some(tasks);
  }

  lemma {:induction false} RowTasksStop(rows: seq<Json>, names: map<Id, string>, i: nat)
    requires i < |rows| && RowTask(rows[i], names).None?
    ensures RowTasks(rows, names).None?
  {
    if i < |rows| - 1 {
      RowTasksStop(rows[..|rows| - 1], names, i);
    }
  }

  lemma {:induction false} TasksStop(payloads: seq<Json>, names: map<Id, string>, i: nat)
    requires i < |payloads| && PayloadTasks(payloads[i], names).None?
    ensures AllTasks(payloads, names).None?
  {
    if i < |payloads| - 1 {
      TasksStop(payloads[..|payloads| - 1], names, i);
    }
  }

  // What is read back ---------------------------------------------------------------

  /** The tasks of assignments that work any hours. */
  function WorkOf(assignments: seq<Assignment>, names: map<Id, string>): seq<Task> {
    if assignments == [] then []
    else
      var init, a := WorkOf(assignments[..|assignments| - 1], names), assignments[|assignments| - 1];
      if TotalHours(a.allocations) == 0 then init
      else init + [ReplanTask(a.taskId, names, TotalHours(a.allocations), a.person)]
  }

  /** The tasks read back, at the positions `at` of the assignments that work any hours: each has the
      hours that were worked, may be done by the assignee only, and keeps its id and name. */
  ghost predicate WorkAt(assignments: seq<Assignment>, names: map<Id, string>, tasks: seq<Task>, at: seq<int>) {
    && |at| == |tasks|
    && (forall k :: 0 <= k < |at| ==>
          && 0 <= at[k] < |assignments|
          && var a := assignments[at[k]];
             tasks[k] == Task(a.taskId, if a.taskId in names then names[a.taskId] else "task", TotalHours(a.allocations),
                              [a.person], None, false, NoPair, false, NotDone, BotFormed, None, None, None))
    && (forall k, l :: 0 <= k < l < |at| ==> at[k] < at[l])
    && (forall i :: 0 <= i < |assignments| ==> (i in at <==> TotalHours(assignments[i].allocations) != 0))
  }

  lemma {:induction false} WorkMeaning(assignments: seq<Assignment>, names: map<Id, string>) returns (at: seq<int>)
    ensures WorkAt(assignments, names, WorkOf(assignments, names), at)
  {
    if assignments == [] {
      at := [];
    } else {
      var n := |assignments| - 1;
      var init := WorkMeaning(assignments[..n], names);
      WorkLast(assignments, names, WorkOf(assignments[..n], names), init);
      hide WorkAt;
      at := if TotalHours(assignments[n].allocations) == 0 then init else init + [n];
    }
  }

  lemma WorkLast(assignments: seq<Assignment>, names: map<Id, string>, tasks: seq<Task>, at: seq<int>)
    requires assignments != [] && WorkAt(assignments[..|assignments| - 1], names, tasks, at)
    ensures var a := assignments[|assignments| - 1];
            if TotalHours(a.allocations) == 0 then WorkAt(assignments, names, tasks, at)
            else WorkAt(assignments, names, tasks + [ReplanTask(a.taskId, names, TotalHours(a.allocations), a.person)],
                        at + [|assignments| - 1])
  {
    var n := |assignments| - 1;
    hide TotalHours;
    assert forall i :: 0 <= i < n ==> assignments[..n][i] == assignments[i];
    assert forall i :: i in at + [n] <==> i in at || i == n;
    assert n !in at;
  }

  function AllAssignments(plans: seq<PlanResult>): seq<Assignment> {
    if plans == [] then []
    else AllAssignments(plans[..|plans| - 1]) + plans[|plans| - 1].assignments
  }

  lemma {:induction false} HoursReadBack(allocs: seq<DayAllocation>)
    ensures SumOfHours(AllocationsJson(allocs)) == Some(TotalHours(allocs))
  {
    if allocs != [] {
      assert AllocationsJson(allocs)[..|allocs| - 1] == AllocationsJson(allocs[..|allocs| - 1]);
      HoursReadBack(allocs[..|allocs| - 1]);
    }
  }

  function WorkTask(a: Assignment, names: map<Id, string>): Option<Task> {
    if TotalHours(a.allocations) == 0 then None
    else Some(ReplanTask(a.taskId, names, TotalHours(a.allocations), a.person))
  }

  lemma RowReadBack(a: Assignment, names: map<Id, string>)
    requires StorableAssignment(a)
    ensures RowTask(AssignmentJson(a), names) == Some(WorkTask(a, names))
  {
    AssignmentFields(a);
    HoursReadBack(a.allocations);
  }

  /** Each row is read as the task it stands for. */
  ghost predicate ReadAs(rows: seq<Json>, names: map<Id, string>, tasks: seq<Option<Task>>) {
    |rows| == |tasks| && forall i :: 0 <= i < |rows| ==> RowTask(rows[i], names) == Some(tasks[i])
  }

  function Present(tasks: seq<Option<Task>>): seq<Task> {
    if tasks == [] then []
    else
      var init, last := Present(tasks[..|tasks| - 1]), tasks[|tasks| - 1];
      if last.Some? then init + [last.value] else init
  }

  lemma {:induction false} RowTasksPresent(rows: seq<Json>, names: map<Id, string>, tasks: seq<Option<Task>>)
    requires ReadAs(rows, names, tasks)
    ensures RowTasks(rows, names) == Some(Present(tasks))
  {
    if rows != [] {
      RowTasksPresent(rows[..|rows| - 1], names, tasks[..|tasks| - 1]);
    }
  }

  function WorkTasks(list: seq<Assignment>, names: map<Id, string>): seq<Option<Task>> {
    seq(|list|, i requires 0 <= i < |list| => WorkTask(list[i], names))
  }

  lemma {:induction false} WorkIsPresent(list: seq<Assignment>, names: map<Id, string>)
    ensures Present(WorkTasks(list, names)) == WorkOf(list, names)
  {
    if list != [] {
      WorkIsPresent(list[..|list| - 1], names);
      assert WorkTasks(list, names)[..|list| - 1] == WorkTasks(list[..|list| - 1], names);
    }
  }

  lemma RowsReadBack(list: seq<Assignment>, rows: seq<Json>, names: map<Id, string>)
    requires forall a :: a in list ==> StorableAssignment(a)
    requires |rows| == |list| && forall i :: 0 <= i < |list| ==> rows[i] == AssignmentJson(list[i])
    ensures RowTasks(rows, names) == Some(WorkOf(list, names))
  {
    forall i | 0 <= i < |list| ensures RowTask(rows[i], names) == Some(WorkTasks(list, names)[i]) {
      RowReadBack(list[i], names);
    }
    RowTasksPresent(rows, names, WorkTasks(list, names));
    WorkIsPresent(list, names);
  }

  lemma PayloadReadBack(plan: PlanResult, names: map<Id, string>)
    requires Storable(plan)
    ensures PayloadTasks(SerializePlan(plan), names) == Some(WorkOf(plan.assignments, names))
  {
    RowsReadBack(plan.assignments, SerializePlan(plan).fields["assignments"].items, names);
  }

  lemma {:induction false} WorkConcat(x: seq<Assignment>, y: seq<Assignment>, names: map<Id, string>)
    ensures WorkOf(x + y, names) == WorkOf(x, names) + WorkOf(y, names)
  {
    if y == [] {
      assert x + y == x;
    } else {
      assert (x + y)[..|x + y| - 1] == x + y[..|y| - 1];
      WorkConcat(x, y[..|y| - 1], names);
    }
  }

  /** The tasks read back from stored plans are those of their assignments. */
  lemma {:induction false} TasksReadBack(plans: seq<PlanResult>, payloads: seq<Json>, names: map<Id, string>)
    requires |payloads| == |plans|
    requires forall i :: 0 <= i < |plans| ==> Storable(plans[i]) && payloads[i] == SerializePlan(plans[i])
    ensures AllTasks(payloads, names) == Some(WorkOf(AllAssignments(plans), names))
  {
    if plans != [] {
      var n := |plans| - 1;
      TasksReadBack(plans[..n], payloads[..n], names);
      PayloadReadBack(plans[n], names);
      WorkConcat(AllAssignments(plans[..n]), plans[n].assignments, names);
    }
  }

  // Totals per person -----------------------------------------------------------------

  function HoursBy(allocs: seq<DayAllocation>, person: Id): int {
    if allocs == [] then 0
    else
      var a := allocs[|allocs| - 1];
      HoursBy(allocs[..|allocs| - 1], person) + if a.person == person then a.hours else 0
  }

  lemma {:induction false} HoursByConcat(x: seq<DayAllocation>, y: seq<DayAllocation>, person: Id)
    ensures HoursBy(x + y, person) == HoursBy(x, person) + HoursBy(y, person)
  {
    if y == [] {
      assert x + y == x;
    } else {
      assert (x + y)[..|x + y| - 1] == x + y[..|y| - 1];
      HoursByConcat(x, y[..|y| - 1], person);
    }
  }

  lemma {:induction false} HoursByOne(allocs: seq<DayAllocation>, owner: Id, person: Id)
    requires forall a :: a in allocs ==> a.person == owner
    ensures HoursBy(allocs, person) == if person == owner then TotalHours(allocs) else 0
  {
    if allocs != [] {
      assert allocs == allocs[..|allocs| - 1] + [allocs[|allocs| - 1]];
      HoursByOne(allocs[..|allocs| - 1], owner, person);
    }
  }

  /** The hours of all assignments that are assigned to a person, whoever works them. */
  function AssignedHours(assignments: seq<Assignment>, person: Id): int {
    if assignments == [] then 0
    else
      var a := assignments[|assignments| - 1];
      AssignedHours(assignments[..|assignments| - 1], person) + if a.person == person then TotalHours(a.allocations) else 0
  }

  /** The hours of the tasks bound to a person. */
  function BoundHours(tasks: seq<Task>, person: Id): int {
    if tasks == [] then 0
    else
      var t := tasks[|tasks| - 1];
      BoundHours(tasks[..|tasks| - 1], person) + if t.allowed == [person] then t.durationHours else 0
  }

  lemma {:induction false} WorkBound(assignments: seq<Assignment>, names: map<Id, string>, person: Id)
    ensures BoundHours(WorkOf(assignments, names), person) == AssignedHours(assignments, person)
  {
    if assignments != [] {
      var init, a := assignments[..|assignments| - 1], assignments[|assignments| - 1];
      WorkBound(init, names, person);
      var w := WorkOf(init, names);
      var t := ReplanTask(a.taskId, names, TotalHours(a.allocations), a.person);
      assert (w + [t])[..|w|] == w;
    }
  }

  // Solving again -------------------------------------------------------------------

  /** A task as it is read back: whole, bound to one person of the team. */
  ghost predicate BoundTask(people: seq<Person>, t: Task) {
    && !t.isSplittable && !t.isWindow && t.pairMode == NoPair && t.status == NotDone
    && |t.allowed| == 1 && t.allowed[0] in PersonIds(people)
  }

  function BoundTo(t: Task, person: Id): int {
    if t.allowed == [person] then t.durationHours else 0
  }

  ghost function TaskWeights(tasks: seq<Task>, person: Id): map<Id, int> {
    map id | id in IdsOf(tasks) :: var t := TaskById(tasks, id); if t.Some? then BoundTo(t.value, person) else 0
  }

  function TaskIdList(tasks: seq<Task>): seq<Id> {
    seq(|tasks|, i requires 0 <= i < |tasks| => tasks[i].id)
  }

  lemma {:induction false} ListedWeight(tasks: seq<Task>, part: seq<Task>, person: Id)
    requires DistinctTasks(tasks) && forall t :: t in part ==> t in tasks
    ensures WeightOf(TaskIdList(part), TaskWeights(tasks, person)) == BoundHours(part, person)
  {
    if part != [] {
      var init, t := part[..|part| - 1], part[|part| - 1];
      assert part == init + [t];
      ListedWeight(tasks, init, person);
      assert TaskIdList(part)[..|part| - 1] == TaskIdList(init);
      TheTask(tasks, t);
    }
  }

  lemma TheTask(tasks: seq<Task>, t: Task)
    requires DistinctTasks(tasks) && t in tasks
    ensures t.id in IdsOf(tasks) && TaskById(tasks, t.id) == Some(t)
  {
    TaskByIdIsTask(tasks, t.id);
    var i :| 0 <= i < |tasks| && tasks[i] == t;
    if TaskById(tasks, t.id).Some? {
      var j :| 0 <= j < |tasks| && tasks[j] == TaskById(tasks, t.id).value;
    }
  }

  /** A task bound to one person is worked by that person, for all its hours. */
  lemma BoundAssignment(req: PlanRequest, calendar: WeekendCalendar, plan: PlanResult, b: Assignment, person: Id)
    requires Schedulable(req) && IsPlan(req, calendar, plan) && DistinctTasks(req.tasks)
    requires forall t :: t in req.tasks ==> BoundTask(req.people, t)
    requires b in plan.assignments
    ensures b.taskId in IdsOf(req.tasks)
    ensures HoursBy(b.allocations, person) == TaskWeights(req.tasks, person)[b.taskId]
  {
    HoursConserved(req, calendar, plan, b);
    var task :| task in req.tasks && task.id == b.taskId &&
                TotalHours(b.allocations) == PlacedHours(req.people, task) &&
                forall x :: x in b.allocations ==> x.person in Eligible(req.people, task);
    TheTask(req.tasks, task);
    assert BoundTask(req.people, task);
    assert task.allowed == [task.allowed[0]];
    assert OnTeam(task.allowed[1..], PersonIds(req.people)) == [];
    assert OnTeam(task.allowed, PersonIds(req.people)) == [task.allowed[0]] + [];
    assert Eligible(req.people, task) == [task.allowed[0]];
    HoursByOne(b.allocations, task.allowed[0], person);
  }

  lemma {:induction false} FlattenWeight(list: seq<Assignment>, w: map<Id, int>, person: Id)
    requires forall b :: b in list ==> b.taskId in w && HoursBy(b.allocations, person) == w[b.taskId]
    ensures HoursBy(Flatten(list), person) == WeightOf(TaskIds(list), w)
  {
    if list != [] {
      var init, b := list[..|list| - 1], list[|list| - 1];
      assert list == init + [b];
      FlattenWeight(init, w, person);
      HoursByConcat(Flatten(init), b.allocations, person);
      assert TaskIds(list)[..|list| - 1] == TaskIds(init);
    }
  }

  /** Solving bound tasks gives every person exactly the hours bound to them. */
  lemma SolvedTotals(req: PlanRequest, calendar: WeekendCalendar, plan: PlanResult, person: Id)
    requires Schedulable(req) && IsPlan(req, calendar, plan) && DistinctTasks(req.tasks)
    requires forall t :: t in req.tasks ==> BoundTask(req.people, t)
    ensures HoursBy(Flatten(plan.assignments), person) == BoundHours(req.tasks, person)
  {
    var w := TaskWeights(req.tasks, person);
    forall b | b in plan.assignments
      ensures b.taskId in w && HoursBy(b.allocations, person) == w[b.taskId]
    {
      BoundAssignment(req, calendar, plan, b, person);
    }
    FlattenWeight(plan.assignments, w, person);
    Complete(req, calendar, plan);
    var x, y := TaskIds(plan.assignments), TaskIdList(req.tasks);
    forall n ensures n in x <==> n in y {
      IdListed(req.tasks, n);
    }
    WeightSameSet(x, y, w);
    ListedWeight(req.tasks, req.tasks, person);
  }

  lemma IdListed(tasks: seq<Task>, n: Id)
    ensures n in TaskIdList(tasks) <==> IsTaskId(tasks, n)
  {
    if t :| t in tasks && t.id == n {
      var i :| 0 <= i < |tasks| && tasks[i] == t;
      assert TaskIdList(tasks)[i] == n;
    }
    if n in TaskIdList(tasks) {
      var i :| 0 <= i < |tasks| && TaskIdList(tasks)[i] == n;
      assert tasks[i] in tasks;
    }
  }

  lemma {:induction false} WorkIsBound(people: seq<Person>, assignments: seq<Assignment>, names: map<Id, string>)
    requires forall a :: a in assignments && TotalHours(a.allocations) != 0 ==> a.person in PersonIds(people)
    ensures forall t :: t in WorkOf(assignments, names) ==> BoundTask(people, t)
  {
    if assignments != [] {
      assert assignments == assignments[..|assignments| - 1] + [assignments[|assignments| - 1]];
      WorkIsBound(people, assignments[..|assignments| - 1], names);
    }
  }

  /** After solving the committed plans again, every person has the hours of the assignments
      that name them, provided everyone with work is still on the team. */
  lemma ReplanTotals(people: seq<Person>, assignments: seq<Assignment>, names: map<Id, string>,
                     deps: seq<Dependency>, overrides: seq<DayOverride>, today: Date,
                     calendar: WeekendCalendar, plan: PlanResult, person: Id)
    requires var req := ReplanRequest(people, WorkOf(assignments, names), deps, overrides, today);
             && DistinctTasks(req.tasks) && Schedulable(req) && IsPlan(req, calendar, plan)
    requires forall a :: a in assignments && TotalHours(a.allocations) != 0 ==> a.person in PersonIds(people)
    ensures HoursBy(Flatten(plan.assignments), person) == AssignedHours(assignments, person)
  {
    WorkIsBound(people, assignments, names);
    SolvedTotals(ReplanRequest(people, WorkOf(assignments, names), deps, overrides, today), calendar, plan, person);
    WorkBound(assignments, names, person);
  }

  // Who loses and who gains -------------------------------------------------------------

  /** The hours a person works in assignments of others. */
  function HelpedHours(assignments: seq<Assignment>, person: Id): int {
    if assignments == [] then 0
    else
      var a := assignments[|assignments| - 1];
      HelpedHours(assignments[..|assignments| - 1], person) +
      if a.person == person then 0 else HoursBy(a.allocations, person)
  }

  /** The hours others work in a person's assignments. */
  function LentHours(assignments: seq<Assignment>, person: Id): int {
    if assignments == [] then 0
    else
      var a := assignments[|assignments| - 1];
      LentHours(assignments[..|assignments| - 1], person) +
      if a.person == person then TotalHours(a.allocations) - HoursBy(a.allocations, person) else 0
  }

  lemma {:induction false} AssignedAndWorked(assignments: seq<Assignment>, person: Id)
    ensures AssignedHours(assignments, person) - HoursBy(Flatten(assignments), person) ==
            LentHours(assignments, person) - HelpedHours(assignments, person)
  {
    if assignments != [] {
      var init, a := assignments[..|assignments| - 1], assignments[|assignments| - 1];
      AssignedAndWorked(init, person);
      HoursByConcat(Flatten(init), a.allocations, person);
    }
  }

  /** Solving again gives every person what others work for them and takes what they work for
      others. So a person's total is kept exactly when the two are equal in the stored plans. */
  lemma ReplanKeepsTotals(people: seq<Person>, assignments: seq<Assignment>, names: map<Id, string>,
                          deps: seq<Dependency>, overrides: seq<DayOverride>, today: Date,
                          calendar: WeekendCalendar, plan: PlanResult, person: Id)
    requires var req := ReplanRequest(people, WorkOf(assignments, names), deps, overrides, today);
             && DistinctTasks(req.tasks) && Schedulable(req) && IsPlan(req, calendar, plan)
    requires forall a :: a in assignments && TotalHours(a.allocations) != 0 ==> a.person in PersonIds(people)
    ensures HoursBy(Flatten(plan.assignments), person) ==
            HoursBy(Flatten(assignments), person) + LentHours(assignments, person) - HelpedHours(assignments, person)
    ensures HoursBy(Flatten(plan.assignments), person) == HoursBy(Flatten(assignments), person) <==>
            LentHours(assignments, person) == HelpedHours(assignments, person)
  {
    ReplanTotals(people, assignments, names, deps, overrides, today, calendar, plan, person);
    AssignedAndWorked(assignments, person);
  }

  ghost predicate OwnWork(assignments: seq<Assignment>) {
    forall a, x :: a in assignments && x in a.allocations ==> x.person == a.person
  }

  lemma {:induction false} OwnWorkBalanced(assignments: seq<Assignment>, person: Id)
    requires OwnWork(assignments)
    ensures LentHours(assignments, person) == 0 && HelpedHours(assignments, person) == 0
  {
    if assignments != [] {
      var init, a := assignments[..|assignments| - 1], assignments[|assignments| - 1];
      assert assignments == init + [a];
      OwnWorkBalanced(init, person);
      HoursByOne(a.allocations, a.person, person);
    }
  }

  /** A plan of the solver for a request without required pairs. */
  ghost predicate UnpairedPlan(req: PlanRequest, calendar: WeekendCalendar, plan: PlanResult) {
    && Schedulable(req) && IsPlan(req, calendar, plan) && DistinctTasks(req.tasks)
    && forall t :: t in req.tasks ==> !IsPair(req.people, t)
  }

  /** Without pairs everyone works their own assignments, done tasks included. */
  lemma UnpairedOwnWork(req: PlanRequest, calendar: WeekendCalendar, plan: PlanResult)
    requires UnpairedPlan(req, calendar, plan)
    ensures OwnWork(plan.assignments)
  {
    forall b, x | b in plan.assignments && x in b.allocations
      ensures x.person == b.person
    {
      if HasFixedId(req.tasks, b.taskId) {
        var t :| t in req.tasks && IsFixed(t) && t.id == b.taskId;
        FixedTasksStay(req, calendar, plan, t);
        UniqueAssignment(req, calendar, plan, FixedAssignment(t), b);
      } else {
        HoursConserved(req, calendar, plan, b);
      }
    }
  }

  lemma {:induction false} UnpairedPlansOwnWork(reqs: seq<PlanRequest>, calendar: WeekendCalendar, plans: seq<PlanResult>)
    requires |reqs| == |plans|
    requires forall i :: 0 <= i < |plans| ==> UnpairedPlan(reqs[i], calendar, plans[i])
    ensures OwnWork(AllAssignments(plans))
  {
    if plans != [] {
      var n := |plans| - 1;
      UnpairedPlansOwnWork(reqs[..n], calendar, plans[..n]);
      UnpairedOwnWork(reqs[n], calendar, plans[n]);
    }
  }

  /** Solving plans again that were solved without pairs keeps everybody's total hours. */
  lemma UnpairedTotalsKept(people: seq<Person>, reqs: seq<PlanRequest>, plans: seq<PlanResult>, names: map<Id, string>,
                           deps: seq<Dependency>, overrides: seq<DayOverride>, today: Date,
                           calendar: WeekendCalendar, plan: PlanResult, person: Id)
    requires |reqs| == |plans|
    requires forall i :: 0 <= i < |plans| ==> UnpairedPlan(reqs[i], calendar, plans[i])
    requires var req := ReplanRequest(people, WorkOf(AllAssignments(plans), names), deps, overrides, today);
             && DistinctTasks(req.tasks) && Schedulable(req) && IsPlan(req, calendar, plan)
    requires forall a :: a in AllAssignments(plans) && TotalHours(a.allocations) != 0 ==> a.person in PersonIds(people)
    ensures HoursBy(Flatten(plan.assignments), person) == HoursBy(Flatten(AllAssignments(plans)), person)
  {
    UnpairedPlansOwnWork(reqs, calendar, plans);
    OwnWorkBalanced(AllAssignments(plans), person);
    ReplanKeepsTotals(people, AllAssignments(plans), names, deps, overrides, today, calendar, plan, person);
  }

  lemma PairHours(a: Assignment, other: Id, day: Date, hours: int)
    requires a.person != other && 0 < hours
    requires a.allocations == [DayAllocation(a.person, day, hours), DayAllocation(other, day, hours)]
    ensures Flatten([a]) == a.allocations && TotalHours(a.allocations) == 2 * hours
    ensures HoursBy(a.allocations, other) == hours && HoursBy(a.allocations, a.person) == hours
    ensures LentHours([a], a.person) == hours && HelpedHours([a], a.person) == 0
    ensures LentHours([a], other) == 0 && HelpedHours([a], other) == hours
  {
    var x, list := a.allocations, [a];
    var first := x[..1];
    assert x[..|x| - 1] == first && first[..|first| - 1] == [] && list[..|list| - 1] == [];
    assert Flatten(list) == x;
    assert TotalHours(first) == hours;
    assert HoursBy(first, a.person) == hours && HoursBy(first, other) == 0;
  }

  lemma OneRowDistinct(a: Assignment, names: map<Id, string>)
    ensures DistinctTasks(WorkOf([a], names))
  {
    assert [a][..0] == [];
  }

  /** A required pair is read back as one person's task of twice the hours: whatever plan solving
      again makes, the first person works all of them and the second none. */
  lemma PairMovesHours(people: seq<Person>, a: Assignment, other: Id, day: Date, hours: int, names: map<Id, string>,
                       deps: seq<Dependency>, overrides: seq<DayOverride>, today: Date,
                       calendar: WeekendCalendar, plan: PlanResult)
    requires a.person != other && 0 < hours && a.person in PersonIds(people)
    requires a.allocations == [DayAllocation(a.person, day, hours), DayAllocation(other, day, hours)]
    requires var req := ReplanRequest(people, WorkOf([a], names), deps, overrides, today);
             Schedulable(req) && IsPlan(req, calendar, plan)
    ensures HoursBy(Flatten([a]), a.person) == hours && HoursBy(Flatten([a]), other) == hours
    ensures HoursBy(Flatten(plan.assignments), a.person) == 2 * hours
    ensures HoursBy(Flatten(plan.assignments), other) == 0
  {
    hide IsPlan, HoursBy, LentHours, HelpedHours, WorkOf, Flatten;
    PairHours(a, other, day, hours);
    OneRowDistinct(a, names);
    ReplanKeepsTotals(people, [a], names, deps, overrides, today, calendar, plan, a.person);
    ReplanKeepsTotals(people, [a], names, deps, overrides, today, calendar, plan, other);
  }
}
