/** The rows behind the plan lifecycle and the repository calls that change them
    (src/planner/infra/db/repo.py). Each call is one transaction.

    The functions on `Tables` say what a call does; the methods of `Repo` do it in place. */
module Store {
  import opened Wrappers
  import opened Models

  datatype VersionStatus = Proposed | Committed | Superseded
  datatype ProjectStatus = Planning | ProjectCommitted | Cancelled

  datatype Version = Version(project: Id, status: VersionStatus, payload: PlanResult)

  datatype AuditAction = ConfirmedPlan | AddedProject

  datatype Audit = Audit(actor: Option<Id>, action: AuditAction, entity: Id)

  datatype Tables = Tables(
    versions: map<Id, Version>,
    projects: map<Id, ProjectStatus>,
    audits: seq<Audit>)
  {
    function CreateProject(id: Id): Tables {
      this.(projects := projects[id := Planning])
    }

    function SaveVersion(id: Id, project: Id, status: VersionStatus, payload: PlanResult): Tables {
      this.(versions := versions[id := Version(project, status, payload)])
    }

    predicate HasStatus(id: Id, status: VersionStatus) {
      id in versions && versions[id].status == status
    }

    /** The conditional update: nothing happens unless the version has the expected status. */
    function Transition(id: Id, from: VersionStatus, to: VersionStatus): Tables {
      if HasStatus(id, from) then this.(versions := versions[id := versions[id].(status := to)]) else this
    }

    function SetProjectStatus(id: Id, status: ProjectStatus): Tables {
      if id in projects then this.(projects := projects[id := status]) else this
    }

    function AddAudit(audit: Audit): Tables {
      this.(audits := audits + [audit])
    }

    /** Every committed version is superseded and its project cancelled. */
    function Reset(): Tables {
      this.(versions := map id | id in versions ::
                          if versions[id].status == Committed then versions[id].(status := Superseded)
                          else versions[id],
            projects := map p | p in projects ::
                          if p in CommittedProjects() then Cancelled else projects[p])
    }

    function CommittedIds(): set<Id> {
      set id | id in versions && versions[id].status == Committed
    }

    function CommittedProjects(): set<Id> {
      set id | id in versions && versions[id].status == Committed :: versions[id].project
    }
  }

  class Repo {
    var versions: map<Id, Version>
    var projects: map<Id, ProjectStatus>
    var audits: seq<Audit>

    function View(): Tables
      reads this
    {
      Tables(versions, projects, audits)
    }

    method CreateProject(id: Id)
      modifies this
      ensures View() == old(View()).CreateProject(id)
    {
      projects := projects[id := Planning];
    }

    method SaveVersion(id: Id, project: Id, status: VersionStatus, payload: PlanResult)
      modifies this
      ensures View() == old(View()).SaveVersion(id, project, status, payload)
    {
      versions := versions[id := Version(project, status, payload)];
    }

    method GetVersion(id: Id) returns (r: Option<Version>)
      ensures r == if id in versions then Some(versions[id]) else None
    {
      r := if id in versions then Some(versions[id]) else None;
    }

    method Transition(id: Id, from: VersionStatus, to: VersionStatus) returns (moved: bool)
      modifies this
      ensures moved == old(View()).HasStatus(id, from)
      ensures View() == old(View()).Transition(id, from, to)
      ensures moved <==> id in old(versions) && old(versions)[id].status == from
      ensures versions == if moved then old(versions)[id := old(versions)[id].(status := to)] else old(versions)
      ensures projects == old(projects) && audits == old(audits)
    {
      moved := id in versions && versions[id].status == from;
      if moved {
        versions := versions[id := versions[id].(status := to)];
      }
    }

    method SetProjectStatus(id: Id, status: ProjectStatus)
      modifies this
      ensures View() == old(View()).SetProjectStatus(id, status)
    {
      if id in projects {
        projects := projects[id := status];
      }
    }

    method AddAudit(audit: Audit)
      modifies this
      ensures View() == old(View()).AddAudit(audit)
    {
      audits := audits + [audit];
    }

    /** Supersedes the committed versions one by one, and then cancels their projects. */
    method ResetAllPlans()
      modifies this
      ensures View() == old(View()).Reset()
      ensures versions.Keys == old(versions).Keys && projects.Keys == old(projects).Keys && audits == old(audits)
      ensures forall id :: id in versions ==>
                versions[id] == if old(versions)[id].status == Committed then old(versions)[id].(status := Superseded)
                                else old(versions)[id]
      ensures forall p :: p in projects ==>
                projects[p] == if exists id :: id in old(versions) && old(versions)[id].status == Committed
                                               && old(versions)[id].project == p
                               then Cancelled else old(projects)[p]
    {
      ghost var before := View();
      var affected := set id | id in versions && versions[id].status == Committed :: versions[id].project;
      assert affected == before.CommittedProjects();
      SupersedeCommitted();
      CancelProjects(affected);
    }

    method CancelProjects(affected: set<Id>)
      modifies this`projects
      ensures projects == map p | p in old(projects) :: if p in affected then Cancelled else old(projects)[p]
    {
      ghost var before := projects;
      var todo := affected;
      while todo != {}
        invariant todo <= affected && projects.Keys == before.Keys
        invariant forall p :: p in projects ==>
          projects[p] == if p in affected - todo then Cancelled else before[p]
        decreases |todo|
      {
        var p :| p in todo;
        if p in projects {
          projects := projects[p := Cancelled];
        }
        todo := todo - {p};
      }
    }

    method SupersedeCommitted()
      modifies this`versions
      ensures versions == old(View()).Reset().versions
    {
      ghost var before := versions;
      var committed := set id | id in versions && versions[id].status == Committed;
      var todo := committed;
      while todo != {}
        invariant todo <= committed && versions.Keys == before.Keys
        invariant forall id :: id in versions ==>
          versions[id] == if id in committed - todo then before[id].(status := Superseded) else before[id]
        decreases |todo|
      {
        var id :| id in todo;
        versions := versions[id := versions[id].(status := Superseded)];
        todo := todo - {id};
      }
      forall id | id in versions
        ensures versions[id] == if before[id].status == Committed then before[id].(status := Superseded) else before[id]
      {
        assert id in committed <==> before[id].status == Committed;
      }
    }
  }
}
