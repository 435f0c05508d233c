/** Template instantiation and the creation of a project: `instantiate_template` and
    `AddProjectUseCase.execute` (src/planner/app/add_project.py). */
module Template {
  import opened Wrappers
  import opened Calendar
  import opened Models
  import opened Graph
  import opened Solver
  import opened Plans
  import opened CriticalPath
  import opened Store

  datatype TaskSpec = TaskSpec(
    ord: int,
    name: string,
    durationHours: int,
    allowed: seq<Id>,
    dependsOn: seq<int>,
    links: seq<LinkType>,
    lags: seq<int>,
    isSplittable: bool,
    pairMode: PairMode,
    isWindow: bool)

  datatype ProjectTemplate = ProjectTemplate(code: string, specs: seq<TaskSpec>)

  // Instantiation -------------------------------------------------------------

  /** The fresh id of every ord, as a dictionary; `ids` are the ids drawn for the specs in turn. */
  function OrdIds(specs: seq<TaskSpec>, ids: seq<Id>): map<int, Id>
    requires |ids| == |specs|
  {
    if specs == [] then map[]
    else OrdIds(specs[..|specs| - 1], ids[..|ids| - 1])[specs[|specs| - 1].ord := ids[|ids| - 1]]
  }

  function SpecTask(spec: TaskSpec, id: Id, project: Id): Task {
    Task(id, spec.name, spec.durationHours, spec.allowed, Some(project), spec.isSplittable, spec.pairMode,
         spec.isWindow, NotDone, FromTemplate, None, None, None)
  }

  function SpecTasks(specs: seq<TaskSpec>, byOrd: map<int, Id>, project: Id): seq<Task>
    requires forall s :: s in specs ==> s.ord in byOrd
  {
    seq(|specs|, i requires 0 <= i < |specs| => SpecTask(specs[i], byOrd[specs[i].ord], project))
  }

  /** Links and lags run parallel to the ords; where they are shorter, the link is FS without lag. */
  function LinkAt(spec: TaskSpec, i: nat): LinkType {
    if i < |spec.links| then spec.links[i] else FS
  }

  function LagAt(spec: TaskSpec, i: nat): int {
    if i < |spec.lags| then spec.lags[i] else 0
  }

  function SpecDependency(spec: TaskSpec, byOrd: map<int, Id>, i: nat): Dependency
    requires i < |spec.dependsOn| && spec.ord in byOrd && spec.dependsOn[i] in byOrd
  {
    Dependency(byOrd[spec.ord], byOrd[spec.dependsOn[i]], LinkAt(spec, i), LagAt(spec, i))
  }

  predicate Resolves(spec: TaskSpec, byOrd: map<int, Id>) {
    spec.ord in byOrd && forall i :: 0 <= i < |spec.dependsOn| ==> spec.dependsOn[i] in byOrd
  }

  function SpecDeps(spec: TaskSpec, byOrd: map<int, Id>): seq<Dependency>
    requires Resolves(spec, byOrd)
  {
    seq(|spec.dependsOn|, i requires 0 <= i < |spec.dependsOn| => SpecDependency(spec, byOrd, i))
  }

  function AllDeps(specs: seq<TaskSpec>, byOrd: map<int, Id>): seq<Dependency>
    requires forall s :: s in specs ==> Resolves(s, byOrd)
  {
    if specs == [] then []
    else AllDeps(specs[..|specs| - 1], byOrd) + SpecDeps(specs[|specs| - 1], byOrd)
  }

  lemma {:induction false} OrdIdsKeys(specs: seq<TaskSpec>, ids: seq<Id>)
    requires |ids| == |specs|
    ensures forall o :: o in OrdIds(specs, ids) <==> exists s :: s in specs && s.ord == o
  {
    if specs != [] {
      assert specs == specs[..|specs| - 1] + [specs[|specs| - 1]];
      OrdIdsKeys(specs[..|specs| - 1], ids[..|ids| - 1]);
    }
  }

  /** Every task keeps the name, the hours, the people in their order and the kind of its spec, is not
      done, belongs to the project and to the template, and has the id of its ord. */
  lemma SpecTasksMeaning(specs: seq<TaskSpec>, byOrd: map<int, Id>, project: Id, i: nat)
    requires i < |specs| && forall s :: s in specs ==> s.ord in byOrd
    ensures |SpecTasks(specs, byOrd, project)| == |specs|
    ensures var t, s := SpecTasks(specs, byOrd, project)[i], specs[i];
            && t.id == byOrd[s.ord] && t.name == s.name && t.durationHours == s.durationHours
            && t.allowed == s.allowed && t.projectId == Some(project) && t.isSplittable == s.isSplittable
            && t.pairMode == s.pairMode && t.isWindow == s.isWindow && t.status == NotDone && t.source == FromTemplate
            && t.fixedStart == None && t.fixedEnd == None && t.fixedAssignee == None
  {
  }

  /** An ord has the id drawn for the last spec of that ord. */
  lemma {:induction false} OrdIdsMeaning(specs: seq<TaskSpec>, ids: seq<Id>, i: nat)
    requires |ids| == |specs| && i < |specs|
    requires forall k :: i < k < |specs| ==> specs[k].ord != specs[i].ord
    ensures specs[i].ord in OrdIds(specs, ids) && OrdIds(specs, ids)[specs[i].ord] == ids[i]
  {
    if i < |specs| - 1 {
      OrdIdsMeaning(specs[..|specs| - 1], ids[..|ids| - 1], i);
    }
  }

  ghost predicate AllResolve(specs: seq<TaskSpec>, byOrd: map<int, Id>) {
    forall s :: s in specs ==> Resolves(s, byOrd)
  }

  /** Copies the specs into tasks with the drawn ids; `None` when an ord does not exist. */
  method Instantiate(template: ProjectTemplate, project: Id, ids: seq<Id>)
    returns (r: Option<(seq<Task>, seq<Dependency>)>)
    requires |ids| == |template.specs|
    ensures var byOrd := OrdIds(template.specs, ids);
            && (forall s :: s in template.specs ==> s.ord in byOrd)
            && (r.None? <==> !AllResolve(template.specs, byOrd))
            && (r.Some? ==> r.value == (SpecTasks(template.specs, byOrd, project), AllDeps(template.specs, byOrd)))
  {
    var specs := template.specs;
    var byOrd := OrdIds(specs, ids);
    OrdIdsKeys(specs, ids);
    var tasks := SpecTasks(specs, byOrd, project);
    var deps: seq<Dependency> := [];
    for i := 0 to |specs|
      invariant forall s :: s in specs[..i] ==> Resolves(s, byOrd)
      invariant deps == AllDeps(specs[..i], byOrd)
    {
      var spec := specs[i];
      assert specs[..i + 1] == specs[..i] + [spec];
      var more := CollectDeps(spec, byOrd);
      if more.None? {
        return None;
      }
      deps := deps + more.value;
      assert specs[..i + 1][..i] == specs[..i];
    }
    assert specs[..|specs|] == specs;
    r := Some((tasks, deps));
  }

  /** The inner loop over the dependencies of one spec. */
  method CollectDeps(spec: TaskSpec, byOrd: map<int, Id>) returns (r: Option<seq<Dependency>>)
    requires spec.ord in byOrd
    ensures r.None? <==> !Resolves(spec, byOrd)
    ensures r.Some? ==> r.value == SpecDeps(spec, byOrd)
  {
    var deps: seq<Dependency> := [];
    for i := 0 to |spec.dependsOn|
      invariant |deps| == i
      invariant forall k :: 0 <= k < i ==> spec.dependsOn[k] in byOrd && deps[k] == SpecDependency(spec, byOrd, k)
    {
      if spec.dependsOn[i] !in byOrd {
        return None;
      }
      deps := deps + [SpecDependency(spec, byOrd, i)];
    }
    r := Some(deps);
  }

  // The ord graph -------------------------------------------------------------

  ghost predicate DistinctOrds(specs: seq<TaskSpec>) {
    forall i, j :: 0 <= i < j < |specs| ==> specs[i].ord != specs[j].ord
  }

  ghost predicate OrdLinked(specs: seq<TaskSpec>, u: int, v: int) {
    exists s :: s in specs && s.ord == v && u in s.dependsOn
  }

  ghost predicate IsOrdWalk(specs: seq<TaskSpec>, w: seq<int>) {
    && w != []
    && (forall i :: 0 <= i < |w| ==> IsOrd(specs, w[i]))
    && (forall i :: 0 <= i < |w| - 1 ==> OrdLinked(specs, w[i], w[i + 1]))
  }

  ghost predicate IsOrd(specs: seq<TaskSpec>, o: int) {
    exists s :: s in specs && s.ord == o
  }

  ghost predicate OrdCycle(specs: seq<TaskSpec>) {
    exists w :: IsOrdWalk(specs, w) && 2 <= |w| && w[0] == w[|w| - 1]
  }

  /** The entry that counts between two ords: the last one in the successor's list. */
  ghost predicate IsLastEntry(spec: TaskSpec, i: nat) {
    i < |spec.dependsOn| && forall k :: i < k < |spec.dependsOn| ==> spec.dependsOn[k] != spec.dependsOn[i]
  }

  // The isomorphism -----------------------------------------------------------

  ghost predicate Injective(m: map<int, Id>) {
    forall x, y :: x in m && y in m && x != y ==> m[x] != m[y]
  }

  lemma {:induction false} OrdIdsInjective(specs: seq<TaskSpec>, ids: seq<Id>)
    requires |ids| == |specs| && Distinct(ids)
    ensures Injective(OrdIds(specs, ids))
    ensures forall o :: o in OrdIds(specs, ids) ==> OrdIds(specs, ids)[o] in ids
  {
    if specs != [] {
      assert ids == ids[..|ids| - 1] + [ids[|ids| - 1]];
      OrdIdsInjective(specs[..|specs| - 1], ids[..|ids| - 1]);
    }
  }

  lemma {:induction false} LastEdgeConcat(x: seq<Dependency>, y: seq<Dependency>, u: Id, v: Id)
    ensures LastEdge(x + y, u, v) == if LastEdge(y, u, v).Some? then LastEdge(y, u, v) else LastEdge(x, u, v)
  {
    if y == [] {
      assert x + y == x;
    } else {
      assert (x + y)[..|x + y| - 1] == x + y[..|y| - 1];
      LastEdgeConcat(x, y[..|y| - 1], u, v);
    }
  }

  /** Between two nodes the edge is that of the last dependency that names them. */
  lemma {:induction false} LastEdgeAt(deps: seq<Dependency>, u: Id, v: Id, i: nat)
    requires i < |deps| && deps[i].dependsOn == u && deps[i].taskId == v
    requires forall k :: i < k < |deps| ==> deps[k].dependsOn != u || deps[k].taskId != v
    ensures LastEdge(deps, u, v) == Some(ToEdge(deps[i]))
  {
    if i < |deps| - 1 {
      LastEdgeAt(deps[..|deps| - 1], u, v, i);
    }
  }

  lemma {:induction false} LastEdgeNone(deps: seq<Dependency>, u: Id, v: Id)
    ensures LastEdge(deps, u, v).None? <==> forall d :: d in deps ==> d.dependsOn != u || d.taskId != v
  {
    if deps != [] {
      LastEdgeNone(deps[..|deps| - 1], u, v);
      assert deps == deps[..|deps| - 1] + [deps[|deps| - 1]];
    }
  }

  lemma OtherSpecNoEdge(spec: TaskSpec, byOrd: map<int, Id>, u: Id, v: Id)
    requires Resolves(spec, byOrd) && byOrd[spec.ord] != v
    ensures LastEdge(SpecDeps(spec, byOrd), u, v).None?
  {
    LastEdgeNone(SpecDeps(spec, byOrd), u, v);
  }

  /** Every entry of the template becomes the edge between the images of its ords, with its link
      and lag, unless a later entry of the same task names the same ord. */
  lemma {:induction false} EntryBecomesEdge(specs: seq<TaskSpec>, byOrd: map<int, Id>, spec: TaskSpec, i: nat)
    requires AllResolve(specs, byOrd) && Injective(byOrd) && DistinctOrds(specs)
    requires spec in specs && IsLastEntry(spec, i)
    ensures spec.ord in byOrd && spec.dependsOn[i] in byOrd
    ensures LastEdge(AllDeps(specs, byOrd), byOrd[spec.dependsOn[i]], byOrd[spec.ord]) ==
            Some(Edge(byOrd[spec.dependsOn[i]], byOrd[spec.ord],
                      if i < |spec.links| then spec.links[i] else FS,
                      if i < |spec.lags| then spec.lags[i] else 0))
  {
    var init, last := specs[..|specs| - 1], specs[|specs| - 1];
    assert specs == init + [last];
    assert Resolves(spec, byOrd) && Resolves(last, byOrd);
    assert spec.dependsOn[i] in byOrd;
    var u, v := byOrd[spec.dependsOn[i]], byOrd[spec.ord];
    LastEdgeConcat(AllDeps(init, byOrd), SpecDeps(last, byOrd), u, v);
    if spec == last {
      LastEdgeAt(SpecDeps(spec, byOrd), u, v, i);
    } else {
      var k :| 0 <= k < |init| && init[k] == spec;
      assert specs[k].ord != last.ord;
      OtherSpecNoEdge(last, byOrd, u, v);
      EntryBecomesEdge(init, byOrd, spec, i);
    }
  }

  lemma {:induction false} DepsComeFromEntries(specs: seq<TaskSpec>, byOrd: map<int, Id>, d: Dependency)
    returns (spec: TaskSpec, i: nat)
    requires AllResolve(specs, byOrd) && d in AllDeps(specs, byOrd)
    ensures spec in specs && i < |spec.dependsOn| && Resolves(spec, byOrd)
    ensures d == SpecDependency(spec, byOrd, i)
  {
    var init, last := specs[..|specs| - 1], specs[|specs| - 1];
    assert specs == init + [last];
    if d in SpecDeps(last, byOrd) {
      spec := last;
      i :| 0 <= i < |spec.dependsOn| && SpecDeps(last, byOrd)[i] == d;
    } else {
      spec, i := DepsComeFromEntries(init, byOrd, d);
    }
  }

  lemma {:induction false} EntryIsDependency(specs: seq<TaskSpec>, byOrd: map<int, Id>, spec: TaskSpec, i: nat)
    requires AllResolve(specs, byOrd) && spec in specs && i < |spec.dependsOn|
    ensures Resolves(spec, byOrd) && SpecDependency(spec, byOrd, i) in AllDeps(specs, byOrd)
  {
    var init, last := specs[..|specs| - 1], specs[|specs| - 1];
    assert specs == init + [last];
    if spec == last {
      assert SpecDeps(spec, byOrd)[i] in SpecDeps(last, byOrd);
    } else {
      EntryIsDependency(init, byOrd, spec, i);
    }
  }

  /** Two ords are linked in the template exactly when their tasks are linked in the project. */
  lemma LinksCorrespond(specs: seq<TaskSpec>, byOrd: map<int, Id>, project: Id, u: int, v: int)
    requires AllResolve(specs, byOrd) && Injective(byOrd)
    requires u in byOrd && v in byOrd
    ensures OrdLinked(specs, u, v) <==>
            Dag(SpecTasks(specs, byOrd, project), AllDeps(specs, byOrd)).Linked(byOrd[u], byOrd[v])
  {
    var tasks, deps := SpecTasks(specs, byOrd, project), AllDeps(specs, byOrd);
    LinkedByLast(tasks, deps, byOrd[u], byOrd[v]);
    LastEdgeNone(deps, byOrd[u], byOrd[v]);
    if OrdLinked(specs, u, v) {
      var s :| s in specs && s.ord == v && u in s.dependsOn;
      var i :| 0 <= i < |s.dependsOn| && s.dependsOn[i] == u;
      EntryIsDependency(specs, byOrd, s, i);
    }
    if LastEdge(deps, byOrd[u], byOrd[v]).Some? {
      var d :| d in deps && d.dependsOn == byOrd[u] && d.taskId == byOrd[v];
      var s, i := DepsComeFromEntries(specs, byOrd, d);
      assert s.ord == v && s.dependsOn[i] == u;
    }
  }

  lemma TasksCorrespond(specs: seq<TaskSpec>, byOrd: map<int, Id>, project: Id, n: Id)
    requires AllResolve(specs, byOrd) && (forall o :: o in byOrd <==> IsOrd(specs, o))
    ensures IsTaskId(SpecTasks(specs, byOrd, project), n) <==> IsImage(byOrd, n)
  {
    var tasks := SpecTasks(specs, byOrd, project);
    if IsTaskId(tasks, n) {
      var t :| t in tasks && t.id == n;
      var i :| 0 <= i < |tasks| && tasks[i] == t;
      assert specs[i] in specs;
    }
    if IsImage(byOrd, n) {
      var o :| o in byOrd && byOrd[o] == n;
      var s :| s in specs && s.ord == o;
      var i :| 0 <= i < |specs| && specs[i] == s;
      assert tasks[i].id == n && tasks[i] in tasks;
    }
  }

  ghost predicate IsImage(byOrd: map<int, Id>, n: Id) {
    exists o :: o in byOrd && byOrd[o] == n
  }

  /** The nodes of the project's graph are the images of the ords, and all of them are tasks. */
  lemma NodesCorrespond(specs: seq<TaskSpec>, byOrd: map<int, Id>, project: Id, n: Id)
    requires AllResolve(specs, byOrd) && (forall o :: o in byOrd <==> IsOrd(specs, o))
    ensures n in Dag(SpecTasks(specs, byOrd, project), AllDeps(specs, byOrd)).nodes <==> IsImage(byOrd, n)
    ensures IsImage(byOrd, n) ==> IsTaskId(SpecTasks(specs, byOrd, project), n)
  {
    var tasks, deps := SpecTasks(specs, byOrd, project), AllDeps(specs, byOrd);
    DagFaithful(tasks, deps);
    TasksCorrespond(specs, byOrd, project, n);
    if IsEndpoint(deps, n) {
      var d :| d in deps && (d.taskId == n || d.dependsOn == n);
      EndsAreImages(specs, byOrd, d);
    }
  }

  lemma EndsAreImages(specs: seq<TaskSpec>, byOrd: map<int, Id>, d: Dependency)
    requires AllResolve(specs, byOrd) && d in AllDeps(specs, byOrd)
    ensures IsImage(byOrd, d.taskId) && IsImage(byOrd, d.dependsOn)
  {
    var s, i := DepsComeFromEntries(specs, byOrd, d);
    var o := s.dependsOn[i];
    assert o in byOrd && byOrd[o] == d.dependsOn;
  }

  // Cycles --------------------------------------------------------------------

  ghost function Image(byOrd: map<int, Id>, w: seq<int>): seq<Id>
    requires forall i :: 0 <= i < |w| ==> w[i] in byOrd
  {
    seq(|w|, i requires 0 <= i < |w| => byOrd[w[i]])
  }

  /** What instantiation gives: every ord its own id. */
  ghost predicate IsNumbering(specs: seq<TaskSpec>, byOrd: map<int, Id>) {
    && AllResolve(specs, byOrd) && Injective(byOrd)
    && (forall o :: o in byOrd <==> IsOrd(specs, o))
  }

  ghost function ProjectGraph(specs: seq<TaskSpec>, byOrd: map<int, Id>, project: Id): DiGraph
    requires AllResolve(specs, byOrd)
  {
    Dag(SpecTasks(specs, byOrd, project), AllDeps(specs, byOrd))
  }

  lemma WalksMap(specs: seq<TaskSpec>, byOrd: map<int, Id>, project: Id, w: seq<int>)
    requires IsNumbering(specs, byOrd) && IsOrdWalk(specs, w)
    ensures forall i :: 0 <= i < |w| ==> w[i] in byOrd
    ensures ProjectGraph(specs, byOrd, project).IsWalk(Image(byOrd, w))
  {
    var g, x := ProjectGraph(specs, byOrd, project), Image(byOrd, w);
    forall i | 0 <= i < |x| ensures x[i] in g.nodes {
      assert byOrd[w[i]] == x[i];
      NodesCorrespond(specs, byOrd, project, x[i]);
    }
    forall i | 0 <= i < |x| - 1 ensures g.Linked(x[i], x[i + 1]) {
      LinksCorrespond(specs, byOrd, project, w[i], w[i + 1]);
    }
  }

  ghost function OrdOf(byOrd: map<int, Id>, n: Id): (o: int)
    requires IsImage(byOrd, n)
    ensures o in byOrd && byOrd[o] == n
  {
    var o :| o in byOrd && byOrd[o] == n; o
  }

  lemma WalksComeFromOrds(specs: seq<TaskSpec>, byOrd: map<int, Id>, project: Id, x: seq<Id>) returns (w: seq<int>)
    requires IsNumbering(specs, byOrd) && ProjectGraph(specs, byOrd, project).IsWalk(x)
    ensures IsOrdWalk(specs, w) && |w| == |x|
    ensures forall i :: 0 <= i < |w| ==> w[i] in byOrd && byOrd[w[i]] == x[i]
  {
    forall i | 0 <= i < |x| ensures IsImage(byOrd, x[i]) {
      NodesCorrespond(specs, byOrd, project, x[i]);
    }
    w := seq(|x|, i requires 0 <= i < |x| => OrdOf(byOrd, x[i]));
    forall i | 0 <= i < |w| - 1 ensures OrdLinked(specs, w[i], w[i + 1]) {
      LinksCorrespond(specs, byOrd, project, w[i], w[i + 1]);
    }
  }

  /** The project's dependency graph has a cycle exactly when the template's ords have one. */
  lemma CyclesCorrespond(specs: seq<TaskSpec>, byOrd: map<int, Id>, project: Id)
    requires IsNumbering(specs, byOrd)
    ensures ProjectGraph(specs, byOrd, project).HasCycle() <==> OrdCycle(specs)
  {
    var g := ProjectGraph(specs, byOrd, project);
    if OrdCycle(specs) {
      var w :| IsOrdWalk(specs, w) && 2 <= |w| && w[0] == w[|w| - 1];
      WalksMap(specs, byOrd, project, w);
      assert Image(byOrd, w)[0] == Image(byOrd, w)[|w| - 1];
    }
    if g.HasCycle() {
      var x :| g.IsWalk(x) && 2 <= |x| && x[0] == x[|x| - 1];
      var w := WalksComeFromOrds(specs, byOrd, project, x);
      assert w[0] == w[|w| - 1];
    }
  }

  // Creating a project ----------------------------------------------------------

  datatype AddError = EmptyTitle | DeadlinePassed | EmptyTemplate | UnknownOrd | NobodyToPlan | CyclicTemplate

  datatype Added = Added(version: Id, plan: PlanResult, earliestEnd: Option<Date>)

  /** Fresh ids for the specs, and hours for what may be split. */
  ghost predicate CanSolve(template: ProjectTemplate, ids: seq<Id>) {
    && |ids| == |template.specs| && Distinct(ids)
    && (forall s :: s in template.specs && s.isSplittable ==> 1 <= s.durationHours)
  }

  /** Whether a project can be made of the template, checked before anything is written. */
  ghost predicate Acceptable(title: string, deadline: Option<Date>, template: ProjectTemplate, people: seq<Person>,
                             today: Date, ids: seq<Id>)
    requires |ids| == |template.specs|
  {
    && title != [] && (deadline.Some? ==> today <= deadline.value) && template.specs != []
    && AllResolve(template.specs, OrdIds(template.specs, ids))
    && people != [] && !OrdCycle(template.specs)
  }

  lemma IsNumbered(specs: seq<TaskSpec>, ids: seq<Id>)
    requires |ids| == |specs| && Distinct(ids) && AllResolve(specs, OrdIds(specs, ids))
    ensures IsNumbering(specs, OrdIds(specs, ids))
  {
    OrdIdsKeys(specs, ids);
    OrdIdsInjective(specs, ids);
  }

  /** Checks, solves, and only then writes: the project and its proposed version, with an audit.
      A rejected project leaves the tables as they were. */
  method AddProject(repo: Repo, title: string, deadline: Option<Date>, actor: Option<Id>, people: seq<Person>,
                    template: ProjectTemplate, calendar: WeekendCalendar, today: Date,
                    existing: seq<DayAllocation>, overrides: seq<DayOverride>,
                    project: Id, ids: seq<Id>, version: Id)
    returns (r: Result<Added, AddError>)
    requires CanSolve(template, ids)
    modifies repo
    ensures r.Success? <==> Acceptable(title, deadline, template, people, today, ids)
    ensures r.Failure? ==>
              && repo.View() == old(repo.View())
              && r.error == if title == [] then EmptyTitle
                            else if deadline.Some? && deadline.value < today then DeadlinePassed
                            else if template.specs == [] then EmptyTemplate
                            else if !AllResolve(template.specs, OrdIds(template.specs, ids)) then UnknownOrd
                            else if people == [] then NobodyToPlan
                            else CyclicTemplate
    ensures r.Success? ==>
              var byOrd := OrdIds(template.specs, ids);
              && AllResolve(template.specs, byOrd)
              && var req := PlanRequest(people, SpecTasks(template.specs, byOrd, project), AllDeps(template.specs, byOrd),
                                        today, overrides, existing, deadline);
              && Schedulable(req) && IsPlan(req, calendar, r.value.plan) && r.value.version == version
              && match deadline
                 case Some(_) => r.value.earliestEnd == None
                 case None =>
                   exists m: nat :: IsLongest(req, Dag(req.tasks, req.dependencies), m) &&
                               r.value.earliestEnd == Some(calendar.Nth(today, (if m < 1 then 1 else m) + 2))
    ensures r.Success? ==>
              && repo.projects == old(repo.projects)[project := Planning]
              && repo.versions == old(repo.versions)[version := Version(project, Proposed, r.value.plan)]
              && repo.audits == old(repo.audits) + [Audit(actor, AddedProject, project)]
  {
    if title == [] {
      return Failure(EmptyTitle);
    }
    if deadline.Some? && deadline.value < today {
      return Failure(DeadlinePassed);
    }
    if template.specs == [] {
      return Failure(EmptyTemplate);
    }
    var made := Instantiate(template, project, ids);
    if made.None? {
      return Failure(UnknownOrd);
    }
    ghost var byOrd := OrdIds(template.specs, ids);
    IsNumbered(template.specs, ids);
    CyclesCorrespond(template.specs, byOrd, project);
    var req := PlanRequest(people, made.value.0, made.value.1, today, overrides, existing, deadline);
    SpecsSplit(template, byOrd, project);
    var plan := Plan(req, calendar);
    if plan.Failure? {
      return Failure(if plan.error == NoPeople then NobodyToPlan else CyclicTemplate);
    }
    var earliest: Option<Date> := None;
    if deadline.None? {
      var end := PresentedEarliestEnd(req, today, calendar);
      AllNodesAreTasks(template.specs, byOrd, project);
      earliest := Some(end.value);
    }
    repo.CreateProject(project);
    repo.SaveVersion(version, project, Proposed, plan.value);
    repo.AddAudit(Audit(actor, AddedProject, project));
    r := Success(Added(version, plan.value, earliest));
  }

  lemma SpecsSplit(template: ProjectTemplate, byOrd: map<int, Id>, project: Id)
    requires AllResolve(template.specs, byOrd)
    requires forall s :: s in template.specs && s.isSplittable ==> 1 <= s.durationHours
    ensures forall t :: t in SpecTasks(template.specs, byOrd, project) && t.isSplittable ==> 1 <= t.durationHours
  {
  }

  lemma AllNodesAreTasks(specs: seq<TaskSpec>, byOrd: map<int, Id>, project: Id)
    requires IsNumbering(specs, byOrd)
    ensures forall n :: n in ProjectGraph(specs, byOrd, project).nodes ==>
              IsTaskId(SpecTasks(specs, byOrd, project), n)
  {
    forall n | n in ProjectGraph(specs, byOrd, project).nodes
      ensures IsTaskId(SpecTasks(specs, byOrd, project), n)
    {
      NodesCorrespond(specs, byOrd, project, n);
    }
  }
}
