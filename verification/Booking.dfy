/** Whole runs of proposing, confirming, superseding and resetting plans: what the committed
    plans together ask of every person and day.

    A new proposal is solved against the load of the committed plans
    (`build_add_project_reply` in src/planner/bot/handlers/task_router.py), which is read back
    from their payloads. A confirm does not solve again. */
module Booking {
  import opened Wrappers
  import opened Calendar
  import opened Models
  import opened Capacity
  import opened Graph
  import opened Solver
  import opened Plans
  import opened Overloads
  import opened Dumps
  import opened LowerBound
  import opened Store

  /** The roster and the calendar are fixed; proposals are solved without day overrides. */
  datatype Office = Office(people: seq<Person>, calendar: WeekendCalendar) {
    function Team(): Team {
      MakeTeam(people, calendar, [])
    }
  }

  /** `basis` records the versions that were committed when a version was solved. */
  datatype Board = Board(tables: Tables, basis: map<Id, set<Id>>)

  datatype Event =
    | Propose(version: Id, project: Id, req: PlanRequest, plan: PlanResult, listed: seq<Id>)
    | Commit(version: Id)
    | Retire(version: Id)
    | ResetAll

  // The load of a set of versions -------------------------------------------------

  function Payloads(t: Tables): map<Id, PlanResult> {
    map id | id in t.versions :: t.versions[id].payload
  }

  function HoursOf(payloads: map<Id, PlanResult>, id: Id, person: Id, day: Date): int {
    if id in payloads then HoursOn(Flatten(payloads[id].assignments), person, day) else 0
  }

  ghost function SumHours(payloads: map<Id, PlanResult>, ids: set<Id>, person: Id, day: Date): int {
    if ids == {} then 0
    else
      var id :| id in ids;
      HoursOf(payloads, id, person, day) + SumHours(payloads, ids - {id}, person, day)
  }

  lemma {:induction false} SumRemove(payloads: map<Id, PlanResult>, ids: set<Id>, k: Id, person: Id, day: Date)
    requires k in ids
    ensures SumHours(payloads, ids, person, day) ==
            HoursOf(payloads, k, person, day) + SumHours(payloads, ids - {k}, person, day)
    decreases |ids|
  {
    var id :| id in ids && SumHours(payloads, ids, person, day) ==
                           HoursOf(payloads, id, person, day) + SumHours(payloads, ids - {id}, person, day);
    if id != k {
      SumRemove(payloads, ids - {id}, k, person, day);
      SumRemove(payloads, ids - {k}, id, person, day);
      assert ids - {id} - {k} == ids - {k} - {id};
    }
  }

  lemma {:induction false} SumSubset(payloads: map<Id, PlanResult>, small: set<Id>, large: set<Id>, person: Id, day: Date)
    requires small <= large
    requires forall id :: id in large ==> 0 <= HoursOf(payloads, id, person, day)
    ensures SumHours(payloads, small, person, day) <= SumHours(payloads, large, person, day)
    decreases |large|
  {
    if large != {} {
      var id :| id in large;
      SumRemove(payloads, large, id, person, day);
      if id in small {
        SumRemove(payloads, small, id, person, day);
        SumSubset(payloads, small - {id}, large - {id}, person, day);
      } else {
        SumSubset(payloads, small, large - {id}, person, day);
      }
    }
  }

  /** New payloads under other ids do not change a sum. */
  lemma {:induction false} SumFrame(x: map<Id, PlanResult>, y: map<Id, PlanResult>, ids: set<Id>, person: Id, day: Date)
    requires forall id :: id in ids ==> id in x && id in y && x[id] == y[id]
    ensures SumHours(x, ids, person, day) == SumHours(y, ids, person, day)
    decreases |ids|
  {
    if ids != {} {
      var id :| id in ids;
      SumRemove(x, ids, id, person, day);
      SumRemove(y, ids, id, person, day);
      SumFrame(x, y, ids - {id}, person, day);
    }
  }

  /** The allocations of the listed plans, one plan after the other. */
  function LoadOf(payloads: map<Id, PlanResult>, listed: seq<Id>): seq<DayAllocation> {
    if listed == [] then []
    else
      var id := listed[|listed| - 1];
      LoadOf(payloads, listed[..|listed| - 1]) +
      if id in payloads then Flatten(payloads[id].assignments) else []
  }

  /** In whatever order the committed plans are listed, their load is the sum over the plans. */
  lemma {:induction false} LoadIsSum(payloads: map<Id, PlanResult>, listed: seq<Id>, person: Id, day: Date)
    requires Distinct(listed)
    ensures HoursOn(LoadOf(payloads, listed), person, day) == SumHours(payloads, Set(listed), person, day)
  {
    if listed == [] {
      assert Set(listed) == {};
    } else {
      var init, id := listed[..|listed| - 1], listed[|listed| - 1];
      LoadIsSum(payloads, init, person, day);
      HoursOnConcat(LoadOf(payloads, init), if id in payloads then Flatten(payloads[id].assignments) else [], person, day);
      assert listed == init + [id];
      assert Set(listed) == Set(init) + {id};
      SumRemove(payloads, Set(listed), id, person, day);
      assert id !in init;
      assert Set(listed) - {id} == Set(init);
    }
  }

  // Steps ---------------------------------------------------------------------------

  /** The tasks of a fresh project: distinct, none of them done, no negative durations. */
  ghost predicate FreshTasks(tasks: seq<Task>) {
    DistinctTasks(tasks) && NonNegativeDurations(tasks) && forall t :: t in tasks ==> !IsFixed(t)
  }

  ghost predicate SolvedNow(office: Office, t: Tables, req: PlanRequest, plan: PlanResult, listed: seq<Id>) {
    && req.people == office.people && req.dayOverrides == []
    && Distinct(listed) && Set(listed) == t.CommittedIds()
    && req.existing == LoadOf(Payloads(t), listed)
    && FreshTasks(req.tasks)
    && Schedulable(req) && IsPlan(req, office.calendar, plan)
  }

  ghost predicate Enabled(office: Office, b: Board, e: Event) {
    e.Propose? ==> e.version !in b.tables.versions && SolvedNow(office, b.tables, e.req, e.plan, e.listed)
  }

  function Do(b: Board, e: Event): Board {
    match e
    case Propose(version, project, req, plan, listed) =>
      Board(b.tables.CreateProject(project).SaveVersion(version, project, Proposed, plan),
            b.basis[version := b.tables.CommittedIds()])
    case Commit(version) => b.(tables := b.tables.Transition(version, Proposed, Committed))
    case Retire(version) => b.(tables := b.tables.Transition(version, Proposed, Superseded))
    case ResetAll => b.(tables := b.tables.Reset())
  }

  /** What the events do to the version rows; projects are not looked at. */
  lemma EventRows(b: Board, e: Event, v: Id)
    ensures e.Propose? ==>
              Do(b, e).tables.versions == b.tables.versions[e.version := Version(e.project, Proposed, e.plan)]
    ensures !e.Propose? ==>
              && (v in Do(b, e).tables.versions <==> v in b.tables.versions)
              && (v in b.tables.versions ==>
                    Do(b, e).tables.versions[v] ==
                    if e.Commit? && e.version == v && b.tables.versions[v].status == Proposed
                    then b.tables.versions[v].(status := Committed)
                    else if e.Retire? && e.version == v && b.tables.versions[v].status == Proposed
                    then b.tables.versions[v].(status := Superseded)
                    else if e.ResetAll? && b.tables.versions[v].status == Committed
                    then b.tables.versions[v].(status := Superseded)
                    else b.tables.versions[v])
  {
  }

  predicate ReportsNoOverload(plan: PlanResult) {
    forall r :: r in plan.risks ==> r.kind != OVERLOAD
  }

  const BLANK := Board(Tables(map[], map[], []), map[])

  /** The board after a run of events from the blank one. */
  function After(events: seq<Event>): Board {
    if events == [] then BLANK
    else Do(After(events[..|events| - 1]), events[|events| - 1])
  }

  /** Every event is enabled in its turn. Any proposal may be confirmed at any time. */
  ghost predicate Possible(office: Office, events: seq<Event>) {
    events == [] ||
    (Possible(office, events[..|events| - 1]) &&
     Enabled(office, After(events[..|events| - 1]), events[|events| - 1]))
  }

  lemma AfterOneMore(office: Office, events: seq<Event>, e: Event)
    requires Possible(office, events) && Enabled(office, After(events), e)
    ensures Possible(office, events + [e]) && After(events + [e]) == Do(After(events), e)
  {
    assert (events + [e])[..|events|] == events;
  }

  lemma {:induction false} PossiblePrefix(office: Office, events: seq<Event>, k: nat)
    requires Possible(office, events) && k <= |events|
    ensures Possible(office, events[..k])
    ensures k < |events| ==> Enabled(office, After(events[..k]), events[k]) &&
                             After(events[..k + 1]) == Do(After(events[..k]), events[k])
  {
    if k == |events| {
      assert events[..k] == events;
    } else {
      var init := events[..|events| - 1];
      assert init[..k] == events[..k];
      PossiblePrefix(office, init, k);
      assert events[..k + 1][..k] == events[..k];
      if k == |events| - 1 {
        assert events[..k + 1] == events;
      }
    }
  }

  // The invariant ---------------------------------------------------------------------

  ghost predicate WithinCapacity(office: Office, payloads: map<Id, PlanResult>, ids: set<Id>, extra: Option<Id>) {
    forall p, d ::
      SumHours(payloads, ids, p, d) + (if extra.Some? then HoursOf(payloads, extra.value, p, d) else 0)
        <= office.Team().BaseCapacity(p, d)
  }

  ghost predicate NonNegativePayloads(payloads: map<Id, PlanResult>) {
    forall id :: id in payloads ==> NonNegativeHours(Flatten(payloads[id].assignments))
  }

  ghost predicate PlansFit(office: Office, b: Board) {
    forall v :: v in b.tables.versions ==>
      && v in b.basis && b.basis[v] <= b.tables.versions.Keys && v !in b.basis[v]
      && (ReportsNoOverload(b.tables.versions[v].payload) ==>
            WithinCapacity(office, Payloads(b.tables), b.basis[v], Some(v)))
  }

  /** What holds of every board, whatever is confirmed. */
  ghost predicate Inv(office: Office, b: Board) {
    NonNegativePayloads(Payloads(b.tables)) && PlansFit(office, b)
  }

  /** The committed plans together ask nobody for more than a day's capacity. */
  ghost predicate CommittedFit(office: Office, b: Board) {
    WithinCapacity(office, Payloads(b.tables), b.tables.CommittedIds(), None)
  }

  /** Neither would they with this version among them. */
  ghost predicate FitsNow(office: Office, b: Board, version: Id) {
    WithinCapacity(office, Payloads(b.tables), b.tables.CommittedIds(), Some(version))
  }

  /** The event commits a version that was proposed. */
  predicate Commits(b: Board, e: Event) {
    e.Commit? && b.tables.HasStatus(e.version, Proposed)
  }

  lemma HoursOfNonNegative(payloads: map<Id, PlanResult>, id: Id, person: Id, day: Date)
    requires NonNegativePayloads(payloads)
    ensures 0 <= HoursOf(payloads, id, person, day)
  {
    if id in payloads {
      HoursOnNonNegative(Flatten(payloads[id].assignments), person, day);
    }
  }

  lemma FewerFit(office: Office, payloads: map<Id, PlanResult>, small: set<Id>, large: set<Id>, extra: Option<Id>)
    requires NonNegativePayloads(payloads) && small <= large && WithinCapacity(office, payloads, large, extra)
    ensures WithinCapacity(office, payloads, small, extra)
  {
    forall p, d
      ensures SumHours(payloads, small, p, d) <= SumHours(payloads, large, p, d)
    {
      forall id | id in large ensures 0 <= HoursOf(payloads, id, p, d) {
        HoursOfNonNegative(payloads, id, p, d);
      }
      SumSubset(payloads, small, large, p, d);
    }
  }

  /** A plan that reports no overload fits together with the plans it was solved against. */
  lemma SolvedPlanFits(office: Office, t: Tables, req: PlanRequest, plan: PlanResult, listed: seq<Id>, person: Id, day: Date)
    requires SolvedNow(office, t, req, plan, listed) && ReportsNoOverload(plan) && office.Team().NonNegative()
    ensures SumHours(Payloads(t), t.CommittedIds(), person, day) + HoursOn(Flatten(plan.assignments), person, day)
            <= office.Team().BaseCapacity(person, day)
  {
    FlagsExact(req, office.calendar, plan, person, day);
    LoadIsSum(Payloads(t), listed, person, day);
    HoursOnConcat(req.existing, Flatten(plan.assignments), person, day);
  }

  lemma SolvedPlanNonNegative(office: Office, t: Tables, req: PlanRequest, plan: PlanResult, listed: seq<Id>)
    requires SolvedNow(office, t, req, plan, listed)
    ensures NonNegativeHours(Flatten(plan.assignments))
  {
    forall a | a in plan.assignments ensures NonNegativeHours(a.allocations) {
      PlanNonNegative(req, office.calendar, plan, a);
    }
    FlattenNonNegative(plan.assignments);
  }

  lemma SumsKept(office: Office, x: map<Id, PlanResult>, y: map<Id, PlanResult>, ids: set<Id>, extra: Option<Id>)
    requires forall id :: id in x ==> id in y && x[id] == y[id]
    requires ids <= x.Keys && (extra.Some? ==> extra.value in x)
    requires WithinCapacity(office, x, ids, extra)
    ensures WithinCapacity(office, y, ids, extra)
  {
    forall p, d
      ensures SumHours(y, ids, p, d) == SumHours(x, ids, p, d)
      ensures extra.Some? ==> HoursOf(y, extra.value, p, d) == HoursOf(x, extra.value, p, d)
    {
      SumFrame(x, y, ids, p, d);
    }
  }

  lemma ProposedPayloads(b: Board, e: Event)
    requires e.Propose? && e.version !in b.tables.versions
    ensures Payloads(Do(b, e).tables) == Payloads(b.tables)[e.version := e.plan]
    ensures Do(b, e).basis == b.basis[e.version := b.tables.CommittedIds()]
  {
  }

  lemma ProposeNonNegative(office: Office, b: Board, e: Event)
    requires e.Propose? && Enabled(office, b, e) && NonNegativePayloads(Payloads(b.tables))
    ensures NonNegativePayloads(Payloads(Do(b, e).tables))
  {
    hide Do, Payloads, SolvedNow;
    ProposedPayloads(b, e);
    SolvedPlanNonNegative(office, b.tables, e.req, e.plan, e.listed);
  }

  lemma ProposeKeeps(office: Office, b: Board, e: Event)
    requires Inv(office, b) && e.Propose? && Enabled(office, b, e) && office.Team().NonNegative()
    ensures Inv(office, Do(b, e))
  {
    var c := Do(b, e);
    var x, y := Payloads(b.tables), Payloads(c.tables);
    ProposeNonNegative(office, b, e);
    ProposedPayloads(b, e);
    hide SolvedNow, NonNegativePayloads, Payloads;
    forall v | v in c.tables.versions && ReportsNoOverload(c.tables.versions[v].payload)
      ensures WithinCapacity(office, y, c.basis[v], Some(v))
    {
      if v == e.version {
        NewPlanFits(office, b, e);
      } else {
        SumsKept(office, x, y, b.basis[v], Some(v));
      }
    }
  }

  /** A new plan without overloads fits together with what it was solved against. */
  lemma NewPlanFits(office: Office, b: Board, e: Event)
    requires e.Propose? && Enabled(office, b, e) && office.Team().NonNegative() && ReportsNoOverload(e.plan)
    ensures WithinCapacity(office, Payloads(Do(b, e).tables), b.tables.CommittedIds(), Some(e.version))
  {
    ProposedPayloads(b, e);
    var x, y := Payloads(b.tables), Payloads(Do(b, e).tables);
    forall p, d
      ensures SumHours(y, b.tables.CommittedIds(), p, d) + HoursOf(y, e.version, p, d) <= office.Team().BaseCapacity(p, d)
    {
      SolvedPlanFits(office, b.tables, e.req, e.plan, e.listed, p, d);
      SumFrame(x, y, b.tables.CommittedIds(), p, d);
    }
  }

  lemma ProposeFits(office: Office, b: Board, e: Event)
    requires e.Propose? && Enabled(office, b, e) && CommittedFit(office, b)
    ensures CommittedFit(office, Do(b, e))
  {
    assert Do(b, e).tables.CommittedIds() == b.tables.CommittedIds();
    SumsKept(office, Payloads(b.tables), Payloads(Do(b, e).tables), b.tables.CommittedIds(), None);
  }

  /** A commit keeps the load within capacity exactly when the version fits on top of it. */
  lemma CommitKeeps(office: Office, b: Board, version: Id)
    requires Inv(office, b) && b.tables.HasStatus(version, Proposed)
    ensures Inv(office, Do(b, Commit(version)))
    ensures CommittedFit(office, Do(b, Commit(version))) <==> FitsNow(office, b, version)
  {
    var c := Do(b, Commit(version));
    var payloads := Payloads(b.tables);
    assert Payloads(c.tables) == payloads;
    var before, after := b.tables.CommittedIds(), c.tables.CommittedIds();
    assert after == before + {version};
    forall p, d
      ensures SumHours(payloads, after, p, d) == SumHours(payloads, before, p, d) + HoursOf(payloads, version, p, d)
    {
      SumRemove(payloads, after, version, p, d);
      assert after - {version} == before;
    }
  }

  lemma WithdrawKeeps(office: Office, b: Board, e: Event)
    requires Inv(office, b) && (e.Retire? || e.ResetAll?)
    ensures Inv(office, Do(b, e))
    ensures CommittedFit(office, b) ==> CommittedFit(office, Do(b, e))
  {
    var c := Do(b, e);
    assert Payloads(c.tables) == Payloads(b.tables);
    assert c.tables.CommittedIds() <= b.tables.CommittedIds();
    if CommittedFit(office, b) {
      FewerFit(office, Payloads(b.tables), c.tables.CommittedIds(), b.tables.CommittedIds(), None);
    }
  }

  lemma StepKeeps(office: Office, b: Board, e: Event)
    requires Inv(office, b) && Enabled(office, b, e) && office.Team().NonNegative()
    ensures Inv(office, Do(b, e))
    ensures CommittedFit(office, b) && (Commits(b, e) ==> FitsNow(office, b, e.version)) ==> CommittedFit(office, Do(b, e))
  {
    match e
    case Propose(_, _, _, _, _) =>
      ProposeKeeps(office, b, e);
      if CommittedFit(office, b) {
        ProposeFits(office, b, e);
      }
    case Commit(version) =>
      if b.tables.HasStatus(version, Proposed) {
        CommitKeeps(office, b, version);
      } else {
        assert Do(b, e) == b;
      }
    case _ => WithdrawKeeps(office, b, e);
  }

  lemma {:induction false} RunKeeps(office: Office, events: seq<Event>)
    requires Possible(office, events) && office.Team().NonNegative()
    ensures Inv(office, After(events))
  {
    if events != [] {
      RunKeeps(office, events[..|events| - 1]);
      StepKeeps(office, After(events[..|events| - 1]), events[|events| - 1]);
    }
  }

  // Whole runs --------------------------------------------------------------------------

  /** After every event the committed plans are within capacity. */
  ghost predicate StaysWithin(office: Office, events: seq<Event>) {
    forall k :: 0 <= k <= |events| ==> CommittedFit(office, After(events[..k]))
  }

  /** Every version fits when it is committed. */
  ghost predicate CommitsFit(office: Office, events: seq<Event>) {
    forall k :: 0 <= k < |events| && Commits(After(events[..k]), events[k]) ==>
      FitsNow(office, After(events[..k]), events[k].version)
  }

  lemma {:induction false} PrefixFits(office: Office, events: seq<Event>, k: nat)
    requires Possible(office, events) && office.Team().NonNegative() && CommitsFit(office, events) && k <= |events|
    ensures CommittedFit(office, After(events[..k]))
  {
    if k == 0 {
      assert BLANK.tables.CommittedIds() == {};
    } else {
      PrefixFits(office, events, k - 1);
      PossiblePrefix(office, events, k - 1);
      RunKeeps(office, events[..k - 1]);
      StepKeeps(office, After(events[..k - 1]), events[k - 1]);
    }
  }

  /** Over a whole run, whatever is proposed, confirmed, superseded and reset, nobody is ever
      booked beyond capacity exactly when every version fits, at the moment it is committed, on top
      of what is committed then. */
  lemma NoDoubleBookingExactly(office: Office, events: seq<Event>)
    requires office.Team().NonNegative() && Possible(office, events)
    ensures StaysWithin(office, events) <==> CommitsFit(office, events)
  {
    if StaysWithin(office, events) {
      forall k | 0 <= k < |events| && Commits(After(events[..k]), events[k])
        ensures FitsNow(office, After(events[..k]), events[k].version)
      {
        PossiblePrefix(office, events, k);
        RunKeeps(office, events[..k]);
        CommitKeeps(office, After(events[..k]), events[k].version);
        assert CommittedFit(office, After(events[..k + 1]));
      }
    }
    if CommitsFit(office, events) {
      forall k | 0 <= k <= |events| ensures CommittedFit(office, After(events[..k])) {
        PrefixFits(office, events, k);
      }
    }
  }

  /** Whether a version fits can be seen before it is committed: the scan for overloads, over the
      current load and the version's own hours, comes out empty. */
  lemma FitsNowIsEmptyScan(office: Office, b: Board, listed: seq<Id>, version: Id, report: seq<Overload>)
    requires office.Team().NonNegative() && version in b.tables.versions
    requires Distinct(listed) && Set(listed) == b.tables.CommittedIds()
    requires IsOverloadReport(office.Team(),
                              LoadOf(Payloads(b.tables), listed) + Flatten(b.tables.versions[version].payload.assignments),
                              report)
    ensures report == [] <==> FitsNow(office, b, version)
  {
    var team, payloads := office.Team(), Payloads(b.tables);
    var own := Flatten(b.tables.versions[version].payload.assignments);
    var ledger := LoadOf(payloads, listed) + own;
    forall p, d
      ensures HoursOn(ledger, p, d) == SumHours(payloads, b.tables.CommittedIds(), p, d) + HoursOf(payloads, version, p, d)
    {
      HoursOnConcat(LoadOf(payloads, listed), own, p, d);
      LoadIsSum(payloads, listed, p, d);
    }
    if report != [] {
      assert report[0] in report;
    }
  }

  // When a plan solved before still fits ------------------------------------------------

  /** A confirm is in time when its plan reports no overload and no plan has been committed
      since it was solved. Plans that were committed then and have been reset do no harm. */
  predicate InTime(b: Board, version: Id) {
    b.tables.HasStatus(version, Proposed) ==>
      && version in b.basis && b.tables.CommittedIds() <= b.basis[version]
      && ReportsNoOverload(b.tables.versions[version].payload)
  }

  /** Two plans work nobody on the same day. */
  ghost predicate ShareNoDay(payloads: map<Id, PlanResult>, v: Id, w: Id) {
    forall p, d :: HoursOf(payloads, v, p, d) == 0 || HoursOf(payloads, w, p, d) == 0
  }

  /** The plan reports no overload, and the plans committed since it was solved share no day with it. */
  ghost predicate StillClear(b: Board, version: Id) {
    b.tables.HasStatus(version, Proposed) ==>
      && version in b.basis && ReportsNoOverload(b.tables.versions[version].payload)
      && forall w :: w in b.tables.CommittedIds() - b.basis[version] ==> ShareNoDay(Payloads(b.tables), version, w)
  }

  lemma {:induction false} SumIgnores(payloads: map<Id, PlanResult>, ids: set<Id>, keep: set<Id>, person: Id, day: Date)
    requires forall id :: id in ids - keep ==> HoursOf(payloads, id, person, day) == 0
    ensures SumHours(payloads, ids, person, day) == SumHours(payloads, ids * keep, person, day)
    decreases |ids|
  {
    if ids != {} {
      var id :| id in ids;
      SumRemove(payloads, ids, id, person, day);
      SumIgnores(payloads, ids - {id}, keep, person, day);
      if id in keep {
        SumRemove(payloads, ids * keep, id, person, day);
        assert ids * keep - {id} == (ids - {id}) * keep;
      } else {
        assert ids * keep == (ids - {id}) * keep;
      }
    }
  }

  lemma StillClearFits(office: Office, b: Board, version: Id)
    requires Inv(office, b) && CommittedFit(office, b)
    requires b.tables.HasStatus(version, Proposed) && StillClear(b, version)
    ensures FitsNow(office, b, version)
  {
    var payloads, ids, basis := Payloads(b.tables), b.tables.CommittedIds(), b.basis[version];
    forall p, d
      ensures SumHours(payloads, ids, p, d) + HoursOf(payloads, version, p, d) <= office.Team().BaseCapacity(p, d)
    {
      if HoursOf(payloads, version, p, d) != 0 {
        forall w | w in ids - basis ensures HoursOf(payloads, w, p, d) == 0 {
          assert ShareNoDay(payloads, version, w);
        }
        SumIgnores(payloads, ids, basis, p, d);
        forall id | id in basis ensures 0 <= HoursOf(payloads, id, p, d) {
          HoursOfNonNegative(payloads, id, p, d);
        }
        SumSubset(payloads, ids * basis, basis, p, d);
      }
    }
  }

  lemma {:induction false} ClearPrefix(office: Office, events: seq<Event>, k: nat)
    requires office.Team().NonNegative() && Possible(office, events) && k <= |events|
    requires forall i :: 0 <= i < |events| && events[i].Commit? ==> StillClear(After(events[..i]), events[i].version)
    ensures CommittedFit(office, After(events[..k]))
  {
    if k == 0 {
      assert BLANK.tables.CommittedIds() == {};
    } else {
      ClearPrefix(office, events, k - 1);
      PossiblePrefix(office, events, k - 1);
      RunKeeps(office, events[..k - 1]);
      if Commits(After(events[..k - 1]), events[k - 1]) {
        StillClearFits(office, After(events[..k - 1]), events[k - 1].version);
      }
      StepKeeps(office, After(events[..k - 1]), events[k - 1]);
    }
  }

  /** Nobody is ever booked beyond capacity over a run in which every confirmed plan reports no
      overload and shares no day with the plans committed since it was solved. */
  lemma NoDoubleBookingWhenClear(office: Office, events: seq<Event>)
    requires office.Team().NonNegative() && Possible(office, events)
    requires forall i :: 0 <= i < |events| && events[i].Commit? ==> StillClear(After(events[..i]), events[i].version)
    ensures StaysWithin(office, events)
  {
    forall k | 0 <= k <= |events| ensures CommittedFit(office, After(events[..k])) {
      ClearPrefix(office, events, k);
    }
  }

  /** In particular over a run in which every confirm is in time. */
  lemma NoDoubleBooking(office: Office, events: seq<Event>)
    requires office.Team().NonNegative() && Possible(office, events)
    requires forall i :: 0 <= i < |events| && events[i].Commit? ==> InTime(After(events[..i]), events[i].version)
    ensures StaysWithin(office, events)
  {
    forall i | 0 <= i < |events| && events[i].Commit?
      ensures StillClear(After(events[..i]), events[i].version)
    {
      assert InTime(After(events[..i]), events[i].version);
    }
    NoDoubleBookingWhenClear(office, events);
  }

  /** A reset leaves nobody any load. */
  lemma ResetClearsLoad(b: Board, person: Id, day: Date)
    ensures var c := Do(b, ResetAll);
            SumHours(Payloads(c.tables), c.tables.CommittedIds(), person, day) == 0
  {
    assert Do(b, ResetAll).tables.CommittedIds() == {};
  }
}
