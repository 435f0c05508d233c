/** Plans as stored payloads: `serialize_plan`, `deserialize_plan` and
    `deserialize_allocations` (src/planner/app/add_project.py). */
module Codec {
  import opened Wrappers
  import opened Calendar
  import opened Models
  import opened Text
  import opened Overloads

  datatype Json =
    | Null
    | Number(n: int)
    | Str(s: string)
    | Arr(items: seq<Json>)
    | Obj(fields: map<string, Json>)

  // Writing -------------------------------------------------------------------

  function AllocationJson(a: DayAllocation): Json {
    Obj(map["person_id" := Str(UuidText(a.person)), "day" := Str(DateText(a.day)), "hours" := Number(a.hours)])
  }

  function AllocationsJson(allocs: seq<DayAllocation>): seq<Json> {
    seq(|allocs|, i requires 0 <= i < |allocs| => AllocationJson(allocs[i]))
  }

  function AssignmentJson(a: Assignment): Json {
    Obj(map["task_id" := Str(UuidText(a.taskId)),
            "person_id" := Str(UuidText(a.person)),
            "start_date" := Str(DateText(a.startDate)),
            "end_date" := Str(DateText(a.endDate)),
            "allocations" := Arr(AllocationsJson(a.allocations))])
  }

  function OptUuidJson(id: Option<Id>): Json {
    if id.Some? then Str(UuidText(id.value)) else Null
  }

  function OptDateJson(day: Option<Date>): Json {
    if day.Some? then Str(DateText(day.value)) else Null
  }

  function RiskJson(r: RiskFlag): Json {
    Obj(map["kind" := Str(r.kind),
            "message" := Str(r.message),
            "task_id" := OptUuidJson(r.taskId),
            "person_id" := OptUuidJson(r.person),
            "day" := OptDateJson(r.day)])
  }

  function SerializePlan(plan: PlanResult): Json {
    Obj(map["assignments" := Arr(seq(|plan.assignments|, i requires 0 <= i < |plan.assignments| =>
                                       AssignmentJson(plan.assignments[i]))),
            "risks" := Arr(seq(|plan.risks|, i requires 0 <= i < |plan.risks| => RiskJson(plan.risks[i]))),
            "end_date" := OptDateJson(plan.endDate)])
  }

  // Reading -------------------------------------------------------------------

  /** `None` stands for the exceptions of a payload that cannot be read. */
  function Field(j: Json, key: string): Option<Json> {
    if j.Obj? && key in j.fields then Some(j.fields[key]) else None
  }

  function ReadUuid(j: Option<Json>): Option<Id> {
    if j.Some? && j.value.Str? then ParseUuid(j.value.s) else None
  }

  function ReadDate(j: Option<Json>): Option<Date> {
    if j.Some? && j.value.Str? then ParseDate(j.value.s) else None
  }

  function ReadString(j: Option<Json>): Option<string> {
    if j.Some? && j.value.Str? then Some(j.value.s) else None
  }

  function ReadNumber(j: Option<Json>): Option<int> {
    if j.Some? && j.value.Number? then Some(j.value.n) else None
  }

  function ReadArray(j: Option<Json>): Option<seq<Json>> {
    if j.Some? && j.value.Arr? then Some(j.value.items) else None
  }

  /** A key that is absent reads as an empty list. */
  function ReadArrayOrEmpty(j: Option<Json>): Option<seq<Json>> {
    if j.None? then Some([]) else ReadArray(j)
  }

  /** An absent key, null and the empty text all read as no value. */
  predicate IsEmptyJson(j: Option<Json>) {
    j.None? || j.value == Null || j.value == Str("")
  }

  function ReadOptUuid(j: Option<Json>): Option<Option<Id>> {
    if IsEmptyJson(j) then Some(None)
    else
      var id := ReadUuid(j);
      if id.Some? then Some(id) else None
  }

  function ReadOptDate(j: Option<Json>): Option<Option<Date>> {
    if IsEmptyJson(j) then Some(None)
    else
      var day := ReadDate(j);
      if day.Some? then Some(day) else None
  }

  function ReadAllocation(j: Json): Option<DayAllocation> {
    var person, day, hours := ReadUuid(Field(j, "person_id")), ReadDate(Field(j, "day")), ReadNumber(Field(j, "hours"));
    if person.Some? && day.Some? && hours.Some? then Some(DayAllocation(person.value, day.value, hours.value)) else None
  }

  function ReadAllocations(items: seq<Json>): Option<seq<DayAllocation>> {
    if items == [] then Some([])
    else
      var init, last := ReadAllocations(items[..|items| - 1]), ReadAllocation(items[|items| - 1]);
      if init.Some? && last.Some? then Some(init.value + [last.value]) else None
  }

  function ReadAssignment(j: Json): Option<Assignment> {
    var task, person := ReadUuid(Field(j, "task_id")), ReadUuid(Field(j, "person_id"));
    var start, end := ReadDate(Field(j, "start_date")), ReadDate(Field(j, "end_date"));
    var items := ReadArray(Field(j, "allocations"));
    var allocs := if items.Some? then ReadAllocations(items.value) else None;
    if task.Some? && person.Some? && start.Some? && end.Some? && allocs.Some?
    then Some(Assignment(task.value, person.value, start.value, end.value, allocs.value))
    else None
  }

  function ReadAssignments(items: seq<Json>): Option<seq<Assignment>> {
    if items == [] then Some([])
    else
      var init, last := ReadAssignments(items[..|items| - 1]), ReadAssignment(items[|items| - 1]);
      if init.Some? && last.Some? then Some(init.value + [last.value]) else None
  }

  function ReadRisk(j: Json): Option<RiskFlag> {
    var kind, message := ReadString(Field(j, "kind")), ReadString(Field(j, "message"));
    var task, person := ReadOptUuid(Field(j, "task_id")), ReadOptUuid(Field(j, "person_id"));
    var day := ReadOptDate(Field(j, "day"));
    if kind.Some? && message.Some? && task.Some? && person.Some? && day.Some?
    then Some(RiskFlag(kind.value, message.value, task.value, person.value, day.value))
    else None
  }

  function ReadRisks(items: seq<Json>): Option<seq<RiskFlag>> {
    if items == [] then Some([])
    else
      var init, last := ReadRisks(items[..|items| - 1]), ReadRisk(items[|items| - 1]);
      if init.Some? && last.Some? then Some(init.value + [last.value]) else None
  }

  function DeserializePlan(payload: Json): Option<PlanResult> {
    if !payload.Obj? then None
    else
      var rows, flags := ReadArrayOrEmpty(Field(payload, "assignments")), ReadArrayOrEmpty(Field(payload, "risks"));
      var assignments := if rows.Some? then ReadAssignments(rows.value) else None;
      var risks := if flags.Some? then ReadRisks(flags.value) else None;
      var end := ReadOptDate(Field(payload, "end_date"));
      if assignments.Some? && risks.Some? && end.Some?
      then Some(PlanResult(assignments.value, risks.value, end.value))
      else None
  }

  /** The allocations of one row; a row without any contributes none. */
  function RowAllocations(row: Json): Option<seq<DayAllocation>> {
    if !row.Obj? then None
    else
      var items := ReadArrayOrEmpty(Field(row, "allocations"));
      if items.Some? then ReadAllocations(items.value) else None
  }

  function AllRowAllocations(rows: seq<Json>): Option<seq<DayAllocation>> {
    if rows == [] then Some([])
    else
      var init, last := AllRowAllocations(rows[..|rows| - 1]), RowAllocations(rows[|rows| - 1]);
      if init.Some? && last.Some? then Some(init.value + last.value) else None
  }

  function Allocations(payload: Json): Option<seq<DayAllocation>> {
    if !payload.Obj? then None
    else
      var rows := ReadArrayOrEmpty(Field(payload, "assignments"));
      if rows.Some? then AllRowAllocations(rows.value) else None
  }

  /** Reads the allocations row by row and entry by entry, without the rest of the plan. */
  method DeserializeAllocations(payload: Json) returns (r: Option<seq<DayAllocation>>)
    ensures r == Allocations(payload)
  {
    var rows := ReadArrayOrEmpty(Field(payload, "assignments"));
    if !payload.Obj? || rows.None? {
      return None;
    }
    var out: seq<DayAllocation> := [];
    for i := 0 to |rows.value|
      invariant AllRowAllocations(rows.value[..i]) == Some(out)
    {
      var row := rows.value[i];
      assert rows.value[..i + 1][..i] == rows.value[..i];
      var items := ReadArrayOrEmpty(Field(row, "allocations"));
      if !row.Obj? || items.None? {
        RowsStop(rows.value, i);
        return None;
      }
      ghost var before := out;
      for k := 0 to |items.value|
        invariant ReadAllocations(items.value[..k]).Some?
        invariant out == before + ReadAllocations(items.value[..k]).value
      {
        assert items.value[..k + 1][..k] == items.value[..k];
        var a := ReadAllocation(items.value[k]);
        if a.None? {
          ItemsStop(items.value, k);
          RowsStop(rows.value, i);
          return None;
        }
        out := out + [a.value];
      }
      assert items.value[..|items.value|] == items.value;
    }
    assert rows.value[..|rows.value|] == rows.value;
    r := Some(out);
  }

  lemma {:induction false} RowsStop(rows: seq<Json>, i: nat)
    requires i < |rows| && RowAllocations(rows[i]).None?
    ensures AllRowAllocations(rows).None?
  {
    if i < |rows| - 1 {
      RowsStop(rows[..|rows| - 1], i);
    }
  }

  lemma {:induction false} ItemsStop(items: seq<Json>, k: nat)
    requires k < |items| && ReadAllocation(items[k]).None?
    ensures ReadAllocations(items).None?
  {
    if k < |items| - 1 {
      ItemsStop(items[..|items| - 1], k);
    }
  }

  // Round trip ------------------------------------------------------------------

  predicate StorableAllocation(a: DayAllocation) {
    IsUuid(a.person) && IsDate(a.day)
  }

  predicate StorableAssignment(a: Assignment) {
    && IsUuid(a.taskId) && IsUuid(a.person) && IsDate(a.startDate) && IsDate(a.endDate)
    && forall x :: x in a.allocations ==> StorableAllocation(x)
  }

  predicate StorableRisk(r: RiskFlag) {
    && (r.taskId.Some? ==> IsUuid(r.taskId.value))
    && (r.person.Some? ==> IsUuid(r.person.value))
    && (r.day.Some? ==> IsDate(r.day.value))
  }

  /** Ids of 128 bits and dates within the years 1 to 9999. */
  predicate Storable(plan: PlanResult) {
    && (forall a :: a in plan.assignments ==> StorableAssignment(a))
    && (forall r :: r in plan.risks ==> StorableRisk(r))
    && (plan.endDate.Some? ==> IsDate(plan.endDate.value))
  }

  lemma AllocationFields(a: DayAllocation)
    ensures var j := AllocationJson(a);
            && Field(j, "person_id") == Some(Str(UuidText(a.person)))
            && Field(j, "day") == Some(Str(DateText(a.day)))
            && Field(j, "hours") == Some(Number(a.hours))
  {
  }

  lemma AllocationRoundTrip(a: DayAllocation)
    requires StorableAllocation(a)
    ensures ReadAllocation(AllocationJson(a)) == Some(a)
  {
    UuidRoundTrip(a.person);
    DateRoundTrip(a.day);
  }

  lemma {:induction false} AllocationsRoundTrip(allocs: seq<DayAllocation>)
    requires forall x :: x in allocs ==> StorableAllocation(x)
    ensures ReadAllocations(AllocationsJson(allocs)) == Some(allocs)
  {
    hide AllocationJson, ReadAllocation, StorableAllocation;
    if allocs != [] {
      var init, last := allocs[..|allocs| - 1], allocs[|allocs| - 1];
      assert allocs == init + [last];
      assert AllocationsJson(allocs)[..|allocs| - 1] == AllocationsJson(init);
      AllocationsRoundTrip(init);
      AllocationRoundTrip(last);
    }
  }

  lemma UuidField(j: Json, key: string, id: Id)
    requires IsUuid(id) && Field(j, key) == Some(Str(UuidText(id)))
    ensures ReadUuid(Field(j, key)) == Some(id)
  {
    UuidRoundTrip(id);
  }

  lemma DateField(j: Json, key: string, day: Date)
    requires IsDate(day) && Field(j, key) == Some(Str(DateText(day)))
    ensures ReadDate(Field(j, key)) == Some(day)
  {
    DateRoundTrip(day);
  }

  /** The five fields of a stored assignment, each as it is read. */
  lemma AssignmentFields(a: Assignment)
    requires StorableAssignment(a)
    ensures var j := AssignmentJson(a);
            && ReadUuid(Field(j, "task_id")) == Some(a.taskId)
            && ReadUuid(Field(j, "person_id")) == Some(a.person)
            && ReadDate(Field(j, "start_date")) == Some(a.startDate)
            && ReadDate(Field(j, "end_date")) == Some(a.endDate)
            && ReadArray(Field(j, "allocations")) == Some(AllocationsJson(a.allocations))
            && ReadArrayOrEmpty(Field(j, "allocations")) == Some(AllocationsJson(a.allocations))
  {
    var j := AssignmentJson(a);
    UuidField(j, "task_id", a.taskId);
    UuidField(j, "person_id", a.person);
    DateField(j, "start_date", a.startDate);
    DateField(j, "end_date", a.endDate);
  }

  lemma AssignmentRoundTrip(a: Assignment)
    requires StorableAssignment(a)
    ensures ReadAssignment(AssignmentJson(a)) == Some(a)
  {
    AssignmentFields(a);
    AllocationsRoundTrip(a.allocations);
  }

  lemma {:induction false} AssignmentsRoundTrip(list: seq<Assignment>, items: seq<Json>)
    requires forall a :: a in list ==> StorableAssignment(a)
    requires |items| == |list| && forall i :: 0 <= i < |list| ==> items[i] == AssignmentJson(list[i])
    ensures ReadAssignments(items) == Some(list)
  {
    if list != [] {
      var init, last := list[..|list| - 1], list[|list| - 1];
      assert list == init + [last];
      AssignmentsRoundTrip(init, items[..|items| - 1]);
      AssignmentRoundTrip(last);
    }
  }

  lemma RiskFields(r: RiskFlag)
    ensures var j := RiskJson(r);
            && Field(j, "kind") == Some(Str(r.kind))
            && Field(j, "message") == Some(Str(r.message))
            && Field(j, "task_id") == Some(OptUuidJson(r.taskId))
            && Field(j, "person_id") == Some(OptUuidJson(r.person))
            && Field(j, "day") == Some(OptDateJson(r.day))
  {
  }

  lemma RiskRoundTrip(r: RiskFlag)
    requires StorableRisk(r)
    ensures ReadRisk(RiskJson(r)) == Some(r)
  {
    RiskFields(r);
    OptUuidRoundTrip(r.taskId);
    OptUuidRoundTrip(r.person);
    OptDateRoundTrip(r.day);
  }

  lemma OptUuidRoundTrip(id: Option<Id>)
    requires id.Some? ==> IsUuid(id.value)
    ensures ReadOptUuid(Some(OptUuidJson(id))) == Some(id)
  {
    if id.Some? {
      UuidRoundTrip(id.value);
    }
  }

  lemma OptDateRoundTrip(day: Option<Date>)
    requires day.Some? ==> IsDate(day.value)
    ensures ReadOptDate(Some(OptDateJson(day))) == Some(day)
  {
    if day.Some? {
      DateRoundTrip(day.value);
    }
  }

  lemma {:induction false} RisksRoundTrip(list: seq<RiskFlag>, items: seq<Json>)
    requires forall r :: r in list ==> StorableRisk(r)
    requires |items| == |list| && forall i :: 0 <= i < |list| ==> items[i] == RiskJson(list[i])
    ensures ReadRisks(items) == Some(list)
  {
    if list != [] {
      var init, last := list[..|list| - 1], list[|list| - 1];
      assert list == init + [last];
      RisksRoundTrip(init, items[..|items| - 1]);
      RiskRoundTrip(last);
    }
  }

  lemma PlanFields(plan: PlanResult)
    ensures var j := SerializePlan(plan);
            && Field(j, "assignments") == Some(Arr(seq(|plan.assignments|, i requires 0 <= i < |plan.assignments| =>
                                                         AssignmentJson(plan.assignments[i]))))
            && Field(j, "risks") == Some(Arr(seq(|plan.risks|, i requires 0 <= i < |plan.risks| =>
                                                   RiskJson(plan.risks[i]))))
            && Field(j, "end_date") == Some(OptDateJson(plan.endDate))
  {
  }

  /** Reading back a stored plan gives the plan. */
  lemma {:induction false} PlanRoundTrip(plan: PlanResult)
    requires Storable(plan)
    ensures DeserializePlan(SerializePlan(plan)) == Some(plan)
  {
    PlanFields(plan);
    AssignmentsRoundTrip(plan.assignments, Field(SerializePlan(plan), "assignments").value.items);
    RisksRoundTrip(plan.risks, Field(SerializePlan(plan), "risks").value.items);
    OptDateRoundTrip(plan.endDate);
  }

  // Reading the load only ---------------------------------------------------------

  lemma {:induction false} RowsFlatten(rows: seq<Json>)
    requires ReadAssignments(rows).Some?
    ensures AllRowAllocations(rows) == Some(Flatten(ReadAssignments(rows).value))
  {
    if rows != [] {
      var init, last := rows[..|rows| - 1], rows[|rows| - 1];
      RowsFlatten(init);
      var list := ReadAssignments(init).value;
      var a := ReadAssignment(last).value;
      assert (list + [a])[..|list|] == list;
    }
  }

  /** Whenever a payload reads as a plan, reading its allocations alone gives the allocations of
      that plan, assignment by assignment. */
  lemma AllocationsFlattenPlan(payload: Json)
    requires DeserializePlan(payload).Some?
    ensures Allocations(payload) == Some(Flatten(DeserializePlan(payload).value.assignments))
  {
    RowsFlatten(ReadArrayOrEmpty(Field(payload, "assignments")).value);
  }
}
