/** One handler at a time: `ConfirmPlanUseCase.execute` (src/planner/app/confirm_plan.py) and the
    end of `handle_edit_text` (src/planner/bot/handlers/task_router.py) as the calls they make on
    the repository, and the same work as a process of the concurrent model that nobody interrupts. */
module Handlers {
  import opened Wrappers
  import opened Models
  import opened Store
  import opened Lifecycle

  datatype ConfirmError = PlanNotFound | PlanNotProposed(status: Option<VersionStatus>)

  /** A confirm commits a proposed version, audits it and marks its project; it leaves anything
      else alone. */
  function ConfirmedTables(t: Tables, target: Id, actor: Option<Id>): Tables {
    if t.HasStatus(target, Proposed) then
      t.Transition(target, Proposed, Committed)
      .AddAudit(Audit(actor, ConfirmedPlan, target))
      .SetProjectStatus(t.versions[target].project, ProjectCommitted)
    else t
  }

  method ConfirmPlan(repo: Repo, target: Id, actor: Option<Id>) returns (r: Result<Version, ConfirmError>)
    modifies repo
    ensures repo.View() == ConfirmedTables(old(repo.View()), target, actor)
    ensures r.Success? <==> target in old(repo.versions) && old(repo.versions)[target].status == Proposed
    ensures r.Success? ==>
              var before := old(repo.versions)[target];
              && repo.versions == old(repo.versions)[target := before.(status := Committed)]
              && repo.audits == old(repo.audits) + [Audit(actor, ConfirmedPlan, target)]
              && repo.projects == if before.project in old(repo.projects)
                                  then old(repo.projects)[before.project := ProjectCommitted] else old(repo.projects)
    ensures r.Failure? ==>
              repo.versions == old(repo.versions) && repo.audits == old(repo.audits) && repo.projects == old(repo.projects)
    ensures r.Success? ==> r.value == old(repo.versions)[target].(status := Committed)
    ensures r.Failure? ==>
              r.error == if target in old(repo.versions) then PlanNotProposed(Some(old(repo.versions)[target].status))
                         else PlanNotFound
  {
    var pv := repo.GetVersion(target);
    if pv.None? {
      return Failure(PlanNotFound);
    }
    var moved := repo.Transition(target, Proposed, Committed);
    if !moved {
      var current := repo.GetVersion(target);
      return Failure(PlanNotProposed(if current.Some? then Some(current.value.status) else None));
    }
    repo.AddAudit(Audit(actor, ConfirmedPlan, target));
    repo.SetProjectStatus(pv.value.project, ProjectCommitted);
    r := Success(pv.value.(status := Committed));
  }

  /** A replaced proposal is superseded and its project cancelled, unless it is no longer proposed. */
  function RetiredTables(t: Tables, replaced: Option<Id>, next: Id): Tables {
    if replaced.Some? && replaced.value != next && t.HasStatus(replaced.value, Proposed) then
      t.Transition(replaced.value, Proposed, Superseded)
      .SetProjectStatus(t.versions[replaced.value].project, Cancelled)
    else t
  }

  method RetireReplaced(repo: Repo, replaced: Option<Id>, next: Id)
    modifies repo
    ensures repo.View() == RetiredTables(old(repo.View()), replaced, next)
    ensures repo.audits == old(repo.audits)
    ensures if replaced.Some? && replaced.value != next
               && replaced.value in old(repo.versions) && old(repo.versions)[replaced.value].status == Proposed then
              var before := old(repo.versions)[replaced.value];
              && repo.versions == old(repo.versions)[replaced.value := before.(status := Superseded)]
              && repo.projects == if before.project in old(repo.projects)
                                  then old(repo.projects)[before.project := Cancelled] else old(repo.projects)
            else
              repo.versions == old(repo.versions) && repo.projects == old(repo.projects)
  {
    if replaced.Some? && replaced.value != next {
      var pv := repo.GetVersion(replaced.value);
      var superseded := repo.Transition(replaced.value, Proposed, Superseded);
      if superseded && pv.Some? {
        repo.SetProjectStatus(pv.value.project, Cancelled);
      }
    }
  }

  function ConfirmOutcome(t: Tables, target: Id): ConfirmPc {
    if t.HasStatus(target, Proposed) then Finished
    else if target in t.versions then Failed(Some(t.versions[target].status))
    else Failed(None)
  }

  // Undisturbed processes --------------------------------------------------------

  /** Process `proc` takes `n` steps and nobody else any. */
  function Alone(s: State, proc: Id, n: nat): (t: State)
    requires proc in s.procs
    ensures forall i :: i in s.procs ==> i in t.procs
    decreases n
  {
    if n == 0 then s
    else Alone(Do(s, Continue(proc)), proc, n - 1)
  }

  /** A process at rest stays as it is. */
  lemma {:induction false} AloneAtRest(s: State, proc: Id, n: nat)
    requires proc in s.procs && AtRest(s.procs[proc])
    ensures Alone(s, proc, n) == s
  {
    if 0 < n {
      assert Do(s, Continue(proc)) == s;
      AloneAtRest(s, proc, n - 1);
    }
  }

  /** The three calls of a confirm that has won its version. */
  lemma WinningConfirmAlone(s: State, proc: Id, project: Id)
    requires proc in s.procs && s.procs[proc].Confirm? && s.procs[proc].cpc == Switching(project)
    requires s.procs[proc].from.None?
    requires s.tables.HasStatus(s.procs[proc].target, Proposed)
    requires s.tables.versions[s.procs[proc].target].project == project
    ensures var p := s.procs[proc];
            var t := Alone(s, proc, 3);
            && t.tables == ConfirmedTables(s.tables, p.target, p.actor)
            && t.procs == s.procs[proc := p.(cpc := Finished)]
  {
    var p := s.procs[proc];
    var s1 := Do(s, Continue(proc));
    var s2 := Do(s1, Continue(proc));
    var s3 := Do(s2, Continue(proc));
    assert s1.procs == s.procs[proc := p.(cpc := Auditing(project))];
    assert s2.procs == s.procs[proc := p.(cpc := Marking(project))];
    assert s3.procs == s.procs[proc := p.(cpc := Finished)];
    assert Alone(s2, proc, 1) == Alone(s3, proc, 0);
    assert Alone(s1, proc, 2) == Alone(s2, proc, 1);
  }

  /** The two calls of a confirm that finds its version no longer proposed. */
  lemma LosingConfirmAlone(s: State, proc: Id, project: Id)
    requires proc in s.procs && s.procs[proc].Confirm? && s.procs[proc].cpc == Switching(project)
    requires s.procs[proc].from.None?
    requires s.procs[proc].target in s.tables.versions && !s.tables.HasStatus(s.procs[proc].target, Proposed)
    ensures var p := s.procs[proc];
            var t := Alone(s, proc, 3);
            && t.tables == s.tables
            && t.procs == s.procs[proc := p.(cpc := Failed(Some(s.tables.versions[p.target].status)))]
  {
    var p := s.procs[proc];
    var s1 := Do(s, Continue(proc));
    var s2 := Do(s1, Continue(proc));
    assert s1.procs == s.procs[proc := p.(cpc := Rereading)];
    assert s2.procs == s.procs[proc := p.(cpc := Failed(Some(s.tables.versions[p.target].status)))];
    AloneAtRest(s2, proc, 1);
    assert Alone(s1, proc, 2) == Alone(s2, proc, 1);
  }

  /** It starts by reading the version. */
  lemma StartCalls(s: State, proc: Id, target: Id, actor: Option<Id>)
    requires proc !in s.procs
    ensures var s0 := Do(s, StartConfirm(proc, target, actor));
            && proc in s0.procs
            && var s1 := Do(s0, Continue(proc));
            && s1.tables == s.tables
            && s1.procs == s.procs[proc := Confirm(target, actor, None,
                             if target in s.tables.versions then Switching(s.tables.versions[target].project)
                             else Failed(None))]
  {
  }

  /** A confirm process left alone does what the handler does, and is finished after four calls. */
  lemma {:induction false} ConfirmAlone(s: State, proc: Id, target: Id, actor: Option<Id>)
    requires proc !in s.procs
    ensures var t := Alone(Do(s, StartConfirm(proc, target, actor)), proc, 4);
            && t.tables == ConfirmedTables(s.tables, target, actor)
            && t.procs == s.procs[proc := Confirm(target, actor, None, ConfirmOutcome(s.tables, target))]
  {
    hide Do;
    StartCalls(s, proc, target, actor);
    var s0 := Do(s, StartConfirm(proc, target, actor));
    var s1 := Do(s0, Continue(proc));
    assert Alone(s0, proc, 4) == Alone(s1, proc, 3);
    if target !in s.tables.versions {
      AloneAtRest(s1, proc, 3);
    } else if s.tables.HasStatus(target, Proposed) {
      WinningConfirmAlone(s1, proc, s.tables.versions[target].project);
    } else {
      LosingConfirmAlone(s1, proc, s.tables.versions[target].project);
    }
  }

  /** An edit left alone from the moment its new proposal is pending retires the old one as the
      handler does, and then waits with the new one pending. */
  lemma {:induction false} EditAlone(s: State, proc: Id)
    requires proc in s.procs && s.procs[proc].Edit? && s.procs[proc].epc.ReadingOld?
    ensures var p := s.procs[proc];
            var t := Alone(s, proc, 4);
            && t.tables == RetiredTables(s.tables, p.prior, p.epc.next)
            && proc in t.procs && AtRest(t.procs[proc]) && t.procs == s.procs[proc := t.procs[proc]]
            && t.chats == s.chats[p.chat := Rearmed(ChatOf(s, p.chat), p.epc.next)]
  {
    var p := s.procs[proc];
    var s1 := Do(s, Continue(proc));
    assert Alone(s, proc, 4) == Alone(s1, proc, 3);
    if s1.procs[proc].epc.Rearming? {
      RearmAlone(s1, proc, 3);
    } else {
      RetireAlone(s1, proc);
    }
  }

  /** The last call arms the loop with the new proposal. */
  lemma RearmAlone(s: State, proc: Id, n: nat)
    requires proc in s.procs && s.procs[proc].Edit? && s.procs[proc].epc.Rearming? && 1 <= n
    ensures var p := s.procs[proc];
            var t := Alone(s, proc, n);
            && t.tables == s.tables && t.procs == s.procs[proc := p.(epc := Closed)]
            && t.chats == s.chats[p.chat := Rearmed(ChatOf(s, p.chat), p.epc.next)]
  {
    var s1 := Do(s, Continue(proc));
    AloneAtRest(s1, proc, n - 1);
    assert Alone(s, proc, n) == Alone(s1, proc, n - 1);
  }

  lemma CancelCall(s: State, proc: Id)
    requires proc in s.procs && s.procs[proc].Edit? && s.procs[proc].epc.Cancelling?
    ensures var p, t := s.procs[proc], Do(s, Continue(proc));
            && t.chats == s.chats && t.tables == s.tables.SetProjectStatus(p.epc.priorProject, Cancelled)
            && t.procs == s.procs[proc := p.(epc := Rearming(p.epc.next))]
  {
  }

  /** Having superseded the old version, it cancels its project and arms the loop. */
  lemma CancelAlone(s: State, proc: Id)
    requires proc in s.procs && s.procs[proc].Edit? && s.procs[proc].epc.Cancelling?
    ensures var p := s.procs[proc];
            var t := Alone(s, proc, 2);
            && t.tables == s.tables.SetProjectStatus(p.epc.priorProject, Cancelled)
            && t.procs == s.procs[proc := p.(epc := Closed)]
            && t.chats == s.chats[p.chat := Rearmed(ChatOf(s, p.chat), p.epc.next)]
  {
    hide Do, Tables.SetProjectStatus, Rearmed;
    CancelCall(s, proc);
    var s1 := Do(s, Continue(proc));
    assert Alone(s, proc, 2) == Alone(s1, proc, 1);
    RearmAlone(s1, proc, 1);
  }

  lemma RetireCall(s: State, proc: Id)
    requires proc in s.procs && s.procs[proc].Edit? && s.procs[proc].epc.Retiring? && s.procs[proc].prior.Some?
    ensures var p, t := s.procs[proc], Do(s, Continue(proc));
            && t.chats == s.chats
            && if s.tables.HasStatus(p.prior.value, Proposed) then
                 && t.tables == s.tables.Transition(p.prior.value, Proposed, Superseded)
                 && t.procs == s.procs[proc := p.(retired := true, epc := Cancelling(p.epc.priorProject, p.epc.next))]
               else
                 t.tables == s.tables && t.procs == s.procs[proc := p.(epc := Rearming(p.epc.next))]
  {
  }

  lemma RetireAlone(s: State, proc: Id)
    requires proc in s.procs && s.procs[proc].Edit? && s.procs[proc].epc.Retiring? && s.procs[proc].prior.Some?
    requires ProjectOf(s.tables, s.procs[proc].prior.value, s.procs[proc].epc.priorProject)
    requires s.procs[proc].prior.value != s.procs[proc].epc.next
    ensures var p := s.procs[proc];
            var t := Alone(s, proc, 3);
            && t.tables == RetiredTables(s.tables, p.prior, p.epc.next)
            && proc in t.procs && AtRest(t.procs[proc]) && t.procs == s.procs[proc := t.procs[proc]]
            && t.chats == s.chats[p.chat := Rearmed(ChatOf(s, p.chat), p.epc.next)]
  {
    hide Do, Tables.Transition, Tables.SetProjectStatus, Rearmed;
    RetireCall(s, proc);
    var s1 := Do(s, Continue(proc));
    assert Alone(s, proc, 3) == Alone(s1, proc, 2);
    if s.tables.HasStatus(s.procs[proc].prior.value, Proposed) {
      CancelAlone(s1, proc);
    } else {
      RearmAlone(s1, proc, 2);
    }
  }

  // Inputs of a chat, undisturbed ------------------------------------------------------

  lemma ClearAlone(s: State, proc: Id, n: nat)
    requires proc in s.procs && s.procs[proc].Confirm? && s.procs[proc].from.Some? && 1 <= n
    requires s.procs[proc].cpc.Finished? || s.procs[proc].cpc.Failed?
    ensures var p := s.procs[proc];
            var t := Alone(s, proc, n);
            t.tables == s.tables && t.chats == s.chats[p.from.value := Chat(None, false, {})]
  {
    var s1 := Do(s, Continue(proc));
    AloneAtRest(s1, proc, n - 1);
    assert Alone(s, proc, n) == Alone(s1, proc, n - 1);
  }

  lemma WinningCalls(s: State, proc: Id, project: Id)
    requires proc in s.procs && s.procs[proc].Confirm? && s.procs[proc].cpc == Switching(project)
    requires s.tables.HasStatus(s.procs[proc].target, Proposed)
    requires s.tables.versions[s.procs[proc].target].project == project
    ensures var p := s.procs[proc];
            var t := Alone(s, proc, 3);
            && t.tables == ConfirmedTables(s.tables, p.target, p.actor) && t.chats == s.chats
            && t.procs == s.procs[proc := p.(cpc := Finished)]
            && Alone(s, proc, 4) == Alone(t, proc, 1)
  {
    var p := s.procs[proc];
    var s1 := Do(s, Continue(proc));
    var s2 := Do(s1, Continue(proc));
    var s3 := Do(s2, Continue(proc));
    assert s1.procs == s.procs[proc := p.(cpc := Auditing(project))];
    assert s2.procs == s.procs[proc := p.(cpc := Marking(project))];
    assert s3.procs == s.procs[proc := p.(cpc := Finished)];
    assert Alone(s2, proc, 1) == Alone(s3, proc, 0);
    assert Alone(s1, proc, 2) == Alone(s2, proc, 1);
    assert Alone(s2, proc, 2) == Alone(s3, proc, 1);
    assert Alone(s1, proc, 3) == Alone(s2, proc, 2);
  }

  lemma LosingCalls(s: State, proc: Id, project: Id)
    requires proc in s.procs && s.procs[proc].Confirm? && s.procs[proc].cpc == Switching(project)
    requires !s.tables.HasStatus(s.procs[proc].target, Proposed)
    ensures var s2 := Do(Do(s, Continue(proc)), Continue(proc));
            && proc in s2.procs && s2.procs[proc].Confirm? && s2.procs[proc].cpc.Failed?
            && s2.procs[proc].from == s.procs[proc].from
            && s2.tables == s.tables && s2.chats == s.chats
            && Alone(s, proc, 4) == Alone(s2, proc, 2)
  {
    var s1 := Do(s, Continue(proc));
    var s2 := Do(s1, Continue(proc));
    assert s1.procs == s.procs[proc := s.procs[proc].(cpc := Rereading)];
    assert Alone(s1, proc, 3) == Alone(s2, proc, 2);
  }

  /** A typed confirmation left alone confirms the version the chat has pending, and clears the chat. */
  lemma TypeOkAlone(s: State, proc: Id, chat: Id, actor: Option<Id>)
    requires proc !in s.procs && ChatOf(s, chat).pending.Some?
    ensures var t := Alone(Do(s, TypeOk(proc, chat, actor)), proc, 5);
            && t.tables == ConfirmedTables(s.tables, ChatOf(s, chat).pending.value, actor)
            && t.chats == s.chats[chat := Chat(None, false, {})]
  {
    hide ConfirmedTables;
    var target := ChatOf(s, chat).pending.value;
    var s0 := Do(s, TypeOk(proc, chat, actor));
    var s1 := Do(s0, Continue(proc));
    assert Alone(s0, proc, 5) == Alone(s1, proc, 4);
    assert s1.tables == s.tables && s1.chats == s.chats && s1.procs[proc].from == Some(chat);
    NotProposedStays(s.tables, target, actor);
    if target !in s.tables.versions {
      ClearAlone(s1, proc, 4);
    } else if s.tables.HasStatus(target, Proposed) {
      WinningCalls(s1, proc, s.tables.versions[target].project);
      ClearAlone(Alone(s1, proc, 3), proc, 1);
    } else {
      LosingCalls(s1, proc, s.tables.versions[target].project);
      ClearAlone(Do(Do(s1, Continue(proc)), Continue(proc)), proc, 2);
    }
  }

  lemma NotProposedStays(t: Tables, target: Id, actor: Option<Id>)
    ensures !t.HasStatus(target, Proposed) ==> ConfirmedTables(t, target, actor) == t
  {
  }

  /** Pressing edit and sending one message that makes a proposal, left alone, replaces the pressed
      version by the new one, which is then pending. */
  lemma EditReplaces(s: State, chat: Id, target: Id, proc: Id, project: Id, version: Id, payload: PlanResult)
    requires target in s.tables.versions && proc !in s.procs
    requires project !in s.tables.projects && version !in s.tables.versions
    ensures var s2 := Do(Do(s, PressEdit(chat, target)), Message(proc, chat));
            && Enabled(s2, BeginProject(proc, project))
            && var s3 := Do(s2, BeginProject(proc, project));
            && Enabled(s3, SaveProposal(proc, version, payload))
            && var s4 := Do(s3, SaveProposal(proc, version, payload));
            && Enabled(s4, Continue(proc))
            && var t := Alone(s4, proc, 6);
            && t.tables == RetiredTables(s.tables.CreateProject(project).SaveVersion(version, project, Proposed, payload)
                                         .AddAudit(Audit(None, AddedProject, project)), Some(target), version)
            && ChatOf(t, chat) == Chat(Some(version), true, {target, version})
  {
    hide RetiredTables, Alone, Do;
    var s4 := Proposing(s, chat, target, proc, project, version, payload);
    var s6 := ReadyToRetire(s4, proc, project, version);
    EditAlone(s6, proc);
    assert {target} + {version} == {target, version} && {target, version} + {version} == {target, version};
  }

  /** Two calls lead from the saved version to the look at the one it replaces. */
  lemma ReadyToRetire(s: State, proc: Id, project: Id, version: Id) returns (t: State)
    requires proc in s.procs && s.procs[proc].Edit? && s.procs[proc].looping
    requires s.procs[proc].epc == AuditingNew(project, version)
    ensures t.tables == s.tables.AddAudit(Audit(None, AddedProject, project))
    ensures t.procs == s.procs[proc := s.procs[proc].(epc := ReadingOld(version))]
    ensures Alone(s, proc, 6) == Alone(t, proc, 4)
    ensures var chat := s.procs[proc].chat; t.chats == s.chats[chat := Stashed(ChatOf(s, chat), version)]
  {
    var s1 := Do(s, Continue(proc));
    t := Do(s1, Continue(proc));
    assert Alone(s, proc, 6) == Alone(s1, proc, 5);
    assert Alone(s1, proc, 5) == Alone(t, proc, 4);
  }

  /** The press, the message and the calls up to the saved version. */
  lemma Proposing(s: State, chat: Id, target: Id, proc: Id, project: Id, version: Id, payload: PlanResult)
    returns (t: State)
    requires target in s.tables.versions && proc !in s.procs
    requires project !in s.tables.projects && version !in s.tables.versions
    ensures var s2 := Do(Do(s, PressEdit(chat, target)), Message(proc, chat));
            && Enabled(s2, BeginProject(proc, project))
            && var s3 := Do(s2, BeginProject(proc, project));
            && Enabled(s3, SaveProposal(proc, version, payload))
            && t == Do(s3, SaveProposal(proc, version, payload))
    ensures t.tables == s.tables.CreateProject(project).SaveVersion(version, project, Proposed, payload)
    ensures t.procs == s.procs[proc := Edit(chat, Some(target), true, false, AuditingNew(project, version))]
    ensures t.chats == s.chats[chat := Chat(Some(target), true, {target})]
  {
    var s2 := Do(Do(s, PressEdit(chat, target)), Message(proc, chat));
    var s3 := Do(s2, BeginProject(proc, project));
    t := Do(s3, SaveProposal(proc, version, payload));
  }
}
