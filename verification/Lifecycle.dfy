/** Concurrent confirms and edits of plan versions (src/planner/app/confirm_plan.py,
    `handle_edit_text` and `_handle_text` in src/planner/bot/handlers/task_router.py,
    `handle_edit` in src/planner/bot/handlers/confirm.py).

    A process is one running handler. Between two calls on the repository or on the stored state
    of a chat any other process may run, also one for the same chat, so a step of the whole system
    is one such call of one process. */
module Lifecycle {
  import opened Wrappers
  import opened Models
  import opened Store

  /** Where a confirm stands: what it will call next. */
  datatype ConfirmPc =
    | Reading
    | Switching(project: Id)
    | Rereading
    | Auditing(project: Id)
    | Marking(project: Id)
    | Finished
    | Failed(status: Option<VersionStatus>)

  /** Where a message that asks for a plan stands: it makes a new proposal, stashes it in the chat,
      and in an edit loop retires the one it replaces and arms the loop again. */
  datatype EditPc =
    | Thinking
    | Saving(project: Id)
    | AuditingNew(project: Id, next: Id)
    | Stashing(next: Id)
    | ReadingOld(next: Id)
    | Retiring(priorProject: Id, next: Id)
    | Cancelling(priorProject: Id, next: Id)
    | Rearming(next: Id)
    | Closed

  /** A confirm by typed text ends by clearing the chat it came `from`. An edit remembers the
      version that was pending when its message came, if the chat was in an edit loop, and whether
      it superseded that version. */
  datatype Process =
    | Confirm(target: Id, actor: Option<Id>, from: Option<Id>, cpc: ConfirmPc)
    | Edit(chat: Id, prior: Option<Id>, looping: bool, retired: bool, epc: EditPc)

  /** What is stored for a chat. `chain` lists the versions it has had pending since its edit loop
      began; no step reads it. */
  datatype Chat = Chat(pending: Option<Id>, looping: bool, chain: set<Id>)

  /** No step reads the last three: which process moved a version, the versions some confirm has
      read, and the versions some edit has taken for the one its new proposal replaces. */
  datatype State = State(
    tables: Tables,
    procs: map<Id, Process>,
    chats: map<Id, Chat>,
    winner: map<Id, Id>,
    asked: set<Id>,
    taken: set<Id>)

  datatype Event =
    | StartConfirm(proc: Id, target: Id, actor: Option<Id>)
    | PressEdit(chat: Id, target: Id)
    | Message(proc: Id, chat: Id)
    | TypeOk(proc: Id, chat: Id, actor: Option<Id>)
    | GiveUp(proc: Id)
    | BeginProject(proc: Id, project: Id)
    | SaveProposal(proc: Id, version: Id, payload: PlanResult)
    | Continue(proc: Id)

  // Steps -------------------------------------------------------------------

  function ChatOf(s: State, chat: Id): Chat {
    if chat in s.chats then s.chats[chat] else Chat(None, false, {})
  }

  /** Process `proc` moves to `p` and leaves the tables as `t`. */
  function Put(s: State, proc: Id, p: Process, t: Tables): State {
    s.(tables := t, procs := s.procs[proc := p])
  }

  /** The same, having won version `v`. */
  function Win(s: State, proc: Id, p: Process, v: Id, to: VersionStatus): State {
    s.(tables := s.tables.Transition(v, Proposed, to), procs := s.procs[proc := p], winner := s.winner[v := proc])
  }

  function SetChat(s: State, chat: Id, c: Chat): State {
    s.(chats := s.chats[chat := c])
  }

  function StepConfirm(s: State, proc: Id, p: Process): State
    requires p.Confirm?
  {
    var t := s.tables;
    match p.cpc
    case Reading =>
      if p.target in t.versions
      then Put(s, proc, p.(cpc := Switching(t.versions[p.target].project)), t).(asked := s.asked + {p.target})
      else Put(s, proc, p.(cpc := Failed(None)), t)
    case Switching(project) =>
      if t.HasStatus(p.target, Proposed) then Win(s, proc, p.(cpc := Auditing(project)), p.target, Committed)
      else Put(s, proc, p.(cpc := Rereading), t)
    case Rereading =>
      var status := if p.target in t.versions then Some(t.versions[p.target].status) else None;
      Put(s, proc, p.(cpc := Failed(status)), t)
    case Auditing(project) =>
      Put(s, proc, p.(cpc := Marking(project)), t.AddAudit(Audit(p.actor, ConfirmedPlan, p.target)))
    case Marking(project) =>
      Put(s, proc, p.(cpc := Finished), t.SetProjectStatus(project, ProjectCommitted))
    case _ =>
      if p.from.None? then s
      else SetChat(Put(s, proc, p.(from := None), t), p.from.value, Chat(None, false, {}))
  }

  /** A new proposal is pending; inside an edit loop it joins the chain. */
  function Stashed(c: Chat, next: Id): Chat {
    Chat(Some(next), c.looping, if c.looping then c.chain + {next} else c.chain)
  }

  function Rearmed(c: Chat, next: Id): Chat {
    Chat(Some(next), true, c.chain + {next})
  }

  function StepEdit(s: State, proc: Id, p: Process): State
    requires p.Edit?
  {
    var t := s.tables;
    match p.epc
    case AuditingNew(project, next) =>
      Put(s, proc, p.(epc := Stashing(next)), t.AddAudit(Audit(None, AddedProject, project)))
    case Stashing(next) =>
      SetChat(Put(s, proc, p.(epc := if p.looping then ReadingOld(next) else Closed), t),
              p.chat, Stashed(ChatOf(s, p.chat), next))
    case ReadingOld(next) =>
      if p.prior.Some? && p.prior.value != next && p.prior.value in t.versions
      then Put(s, proc, p.(epc := Retiring(t.versions[p.prior.value].project, next)), t)
      else Put(s, proc, p.(epc := Rearming(next)), t)
    case Retiring(priorProject, next) =>
      if p.prior.Some? && t.HasStatus(p.prior.value, Proposed)
      then Win(s, proc, p.(retired := true, epc := Cancelling(priorProject, next)), p.prior.value, Superseded)
      else Put(s, proc, p.(epc := Rearming(next)), t)
    case Cancelling(priorProject, next) =>
      Put(s, proc, p.(epc := Rearming(next)), t.SetProjectStatus(priorProject, Cancelled))
    case Rearming(next) =>
      SetChat(Put(s, proc, p.(epc := Closed), t), p.chat, Rearmed(ChatOf(s, p.chat), next))
    case _ => s
  }

  predicate IsEditAt(s: State, proc: Id, epc: EditPc) {
    proc in s.procs && s.procs[proc].Edit? && s.procs[proc].epc == epc
  }

  /** Fresh ids are new, an edit button names a saved version, and a typed confirmation finds a
      version pending. Messages may come at any time, also to a chat that is busy. */
  predicate Enabled(s: State, e: Event) {
    match e
    case StartConfirm(proc, target, actor) => proc !in s.procs
    case PressEdit(chat, target) => target in s.tables.versions
    case Message(proc, chat) => proc !in s.procs
    case TypeOk(proc, chat, actor) => proc !in s.procs && ChatOf(s, chat).pending.Some?
    case GiveUp(proc) => IsEditAt(s, proc, Thinking)
    case BeginProject(proc, project) => IsEditAt(s, proc, Thinking) && project !in s.tables.projects
    case SaveProposal(proc, version, payload) =>
      proc in s.procs && IsSaving(s.procs[proc]) && version !in s.tables.versions
    case Continue(proc) => proc in s.procs
  }

  predicate IsSaving(p: Process) {
    p.Edit? && p.epc.Saving?
  }

  function Do(s: State, e: Event): State
    requires Enabled(s, e)
  {
    var t := s.tables;
    match e
    case StartConfirm(proc, target, actor) => Put(s, proc, Confirm(target, actor, None, Reading), t)
    case PressEdit(chat, target) => SetChat(s, chat, Chat(Some(target), true, {target}))
    case Message(proc, chat) =>
      var c := ChatOf(s, chat);
      Put(s, proc, Edit(chat, if c.looping then c.pending else None, c.looping, false, Thinking), t)
    case TypeOk(proc, chat, actor) =>
      Put(s, proc, Confirm(ChatOf(s, chat).pending.value, actor, Some(chat), Reading), t)
    case GiveUp(proc) => Put(s, proc, s.procs[proc].(epc := Closed), t)
    case BeginProject(proc, project) =>
      Put(s, proc, s.procs[proc].(epc := Saving(project)), t.CreateProject(project))
    case SaveProposal(proc, version, payload) =>
      var p := s.procs[proc];
      Put(s, proc, p.(epc := AuditingNew(p.epc.project, version)),
          t.SaveVersion(version, p.epc.project, Proposed, payload))
      .(taken := s.taken + if p.prior.Some? then {p.prior.value} else {})
    case Continue(proc) =>
      if s.procs[proc].Confirm? then StepConfirm(s, proc, s.procs[proc])
      else StepEdit(s, proc, s.procs[proc])
  }

  const EMPTY := State(Tables(map[], map[], []), map[], map[], map[], {}, {})

  /** `t` is reached from `s` by the events, each enabled in its turn. */
  ghost predicate Runs(s: State, events: seq<Event>, t: State)
    decreases |events|
  {
    if events == [] then s == t
    else
      var init, e := events[..|events| - 1], events[|events| - 1];
      exists m :: Runs(s, init, m) && Enabled(m, e) && t == Do(m, e)
  }

  lemma RunOneMore(s: State, events: seq<Event>, m: State, e: Event)
    requires Runs(s, events, m) && Enabled(m, e)
    ensures Runs(s, events + [e], Do(m, e))
  {
    assert (events + [e])[..|events|] == events;
  }

  // The invariant -------------------------------------------------------------

  /** Versions belong to projects, and no two to the same. */
  ghost predicate RowsOk(t: Tables) {
    && (forall v :: v in t.versions ==> t.versions[v].project in t.projects)
    && (forall v, w :: v in t.versions && w in t.versions && v != w ==>
          t.versions[v].project != t.versions[w].project)
  }

  /** A process has won version `v`. */
  predicate Wins(p: Process, v: Id) {
    if p.Confirm? then p.target == v && (p.cpc.Auditing? || p.cpc.Marking? || p.cpc.Finished?)
    else p.retired && p.prior == Some(v)
  }

  /** A process has won version `v` and still has to set the status of its project. */
  predicate StillMarks(p: Process, v: Id) {
    if p.Confirm? then p.target == v && (p.cpc.Auditing? || p.cpc.Marking?)
    else p.epc.Cancelling? && p.prior == Some(v)
  }

  predicate ProjectOf(t: Tables, v: Id, project: Id) {
    v in t.versions && t.versions[v].project == project
  }

  /** What a confirm remembers is true of the tables. */
  predicate ConfirmOk(t: Tables, p: Process)
    requires p.Confirm?
  {
    match p.cpc
    case Switching(project) => ProjectOf(t, p.target, project)
    case Auditing(project) => ProjectOf(t, p.target, project)
    case Marking(project) => ProjectOf(t, p.target, project)
    case _ => true
  }

  ghost predicate Unused(t: Tables, project: Id) {
    project in t.projects && t.projects[project] == Planning &&
    forall v :: v in t.versions ==> t.versions[v].project != project
  }

  /** The new proposal is saved, and it is not the one it replaces. */
  predicate NextOk(t: Tables, p: Process, next: Id)
    requires p.Edit?
  {
    next in t.versions && p.prior != Some(next)
  }

  /** What an edit remembers is true of the tables. */
  ghost predicate EditOk(t: Tables, p: Process)
    requires p.Edit?
  {
    && (p.prior.Some? ==> p.looping && p.prior.value in t.versions)
    && match p.epc
       case Thinking => !p.retired
       case Saving(project) => !p.retired && Unused(t, project)
       case AuditingNew(_, next) => !p.retired && NextOk(t, p, next)
       case Stashing(next) => !p.retired && NextOk(t, p, next)
       case ReadingOld(next) => !p.retired && NextOk(t, p, next)
       case Retiring(priorProject, next) =>
         !p.retired && NextOk(t, p, next) && p.prior.Some? && ProjectOf(t, p.prior.value, priorProject)
       case Cancelling(priorProject, next) =>
         p.retired && NextOk(t, p, next) && p.prior.Some? && ProjectOf(t, p.prior.value, priorProject)
       case Rearming(next) => NextOk(t, p, next)
       case Closed => true
  }

  ghost predicate ProcessOk(t: Tables, p: Process) {
    if p.Confirm? then ConfirmOk(t, p) else EditOk(t, p)
  }

  ghost predicate ProcessesOk(s: State) {
    && (forall i :: i in s.procs ==> ProcessOk(s.tables, s.procs[i]))
    && (forall i, j :: i in s.procs && j in s.procs && i != j && IsSaving(s.procs[i]) && IsSaving(s.procs[j]) ==>
          s.procs[i].epc.project != s.procs[j].epc.project)
  }

  /** The versions that are no longer proposed are those with a winner, a confirm for the
      committed and an edit for the superseded ones, and nobody else has won them. */
  ghost predicate WinnersOk(s: State) {
    && (forall v :: v in s.tables.versions && s.tables.versions[v].status != Proposed ==> v in s.winner)
    && (forall v :: v in s.winner ==>
          && v in s.tables.versions && s.winner[v] in s.procs
          && Wins(s.procs[s.winner[v]], v)
          && s.tables.versions[v].status == (if s.procs[s.winner[v]].Confirm? then Committed else Superseded))
    && (forall i, v :: i in s.procs && Wins(s.procs[i], v) ==> v in s.winner && s.winner[v] == i)
  }

  function StatusFor(status: VersionStatus): ProjectStatus {
    match status
    case Proposed => Planning
    case Committed => ProjectCommitted
    case Superseded => Cancelled
  }

  /** The status a version's project has: the one that goes with the version's, once its winner
      has set it. */
  ghost predicate ProjectsOk(s: State) {
    forall v :: v in s.tables.versions && s.tables.versions[v].project in s.tables.projects ==>
      s.tables.projects[s.tables.versions[v].project] ==
      if v in s.winner && s.winner[v] in s.procs && StillMarks(s.procs[s.winner[v]], v) then Planning
      else StatusFor(s.tables.versions[v].status)
  }

  function Confirms(audits: seq<Audit>, v: Id): nat {
    if audits == [] then 0
    else
      var last := audits[|audits| - 1];
      Confirms(audits[..|audits| - 1], v) + if last.action == ConfirmedPlan && last.entity == v then 1 else 0
  }

  /** One confirm audit for a committed version once its winner has written it, none otherwise. */
  ghost predicate AuditsOk(s: State) {
    forall v :: Confirms(s.tables.audits, v) ==
      if v in s.winner && s.winner[v] in s.procs && s.procs[s.winner[v]].Confirm? &&
         !s.procs[s.winner[v]].cpc.Auditing?
      then 1 else 0
  }

  ghost predicate Core(s: State) {
    RowsOk(s.tables) && ProcessesOk(s) && WinnersOk(s) && ProjectsOk(s) && AuditsOk(s)
  }

  // Preservation ----------------------------------------------------------------

  /** Rows are never lost, versions keep their project, and a status only leaves proposed. */
  ghost predicate Evolves(t: Tables, u: Tables) {
    && (forall v :: v in t.versions ==>
          && v in u.versions && u.versions[v].project == t.versions[v].project
          && (u.versions[v].status == t.versions[v].status || t.versions[v].status == Proposed))
    && (forall p :: p in t.projects ==> p in u.projects)
  }

  /** A process that takes no step keeps what it remembers, as long as nobody uses the project
      it is about to save a version of. */
  lemma Frame(t: Tables, u: Tables, p: Process)
    requires ProcessOk(t, p) && Evolves(t, u)
    requires IsSaving(p) ==> Unused(u, p.epc.project)
    ensures ProcessOk(u, p)
  {
  }

  /** One process moves to `p`, the tables to `u`. */
  lemma ProcessesMove(s: State, proc: Id, p: Process, u: Tables, winner: map<Id, Id>)
    requires ProcessesOk(s) && Evolves(s.tables, u) && ProcessOk(u, p)
    requires forall i :: i in s.procs && i != proc && IsSaving(s.procs[i]) ==>
               && Unused(u, s.procs[i].epc.project)
               && (IsSaving(p) ==> s.procs[i].epc.project != p.epc.project)
    ensures ProcessesOk(s.(tables := u, procs := s.procs[proc := p], winner := winner))
  {
    forall i | i in s.procs && i != proc ensures ProcessOk(u, s.procs[i]) {
      assert ProcessOk(s.tables, s.procs[i]);
      Frame(s.tables, u, s.procs[i]);
    }
  }

  /** What the others can see of a process: the versions it has won, and how far it is with them. */
  ghost predicate SameRole(p: Process, q: Process) {
    && (p.Confirm? <==> q.Confirm?)
    && forall v :: (Wins(p, v) <==> Wins(q, v)) && (StillMarks(p, v) <==> StillMarks(q, v))
  }

  predicate AuditDone(p: Process) {
    p.Confirm? && !p.cpc.Auditing?
  }

  ghost predicate NoRole(p: Process) {
    forall v :: !Wins(p, v) && !StillMarks(p, v)
  }

  /** A step that wins nothing, marks nothing and writes no row. */
  ghost predicate IsQuiet(s: State, proc: Id, p: Process) {
    && ProcessOk(s.tables, p)
    && (if proc in s.procs then SameRole(s.procs[proc], p) && AuditDone(s.procs[proc]) == AuditDone(p) else NoRole(p))
    && (IsSaving(p) ==> proc in s.procs && s.procs[proc] == p)
  }

  lemma SavingProjectsUnused(s: State)
    requires ProcessesOk(s)
    ensures forall i :: i in s.procs && IsSaving(s.procs[i]) ==> Unused(s.tables, s.procs[i].epc.project)
  {
    forall i | i in s.procs && IsSaving(s.procs[i]) ensures Unused(s.tables, s.procs[i].epc.project) {
      assert ProcessOk(s.tables, s.procs[i]);
    }
  }

  lemma QuietWinners(s: State, proc: Id, p: Process)
    requires WinnersOk(s) && IsQuiet(s, proc, p)
    ensures WinnersOk(Put(s, proc, p, s.tables))
  {
  }

  lemma QuietProjects(s: State, proc: Id, p: Process)
    requires WinnersOk(s) && ProjectsOk(s) && AuditsOk(s) && IsQuiet(s, proc, p)
    ensures ProjectsOk(Put(s, proc, p, s.tables)) && AuditsOk(Put(s, proc, p, s.tables))
  {
  }

  lemma QuietStep(s: State, proc: Id, p: Process)
    requires Core(s) && IsQuiet(s, proc, p)
    ensures Core(Put(s, proc, p, s.tables))
  {
    SavingProjectsUnused(s);
    ProcessesMove(s, proc, p, s.tables, s.winner);
    QuietWinners(s, proc, p);
    QuietProjects(s, proc, p);
  }

  /** A process sets the status of the project whose version it has won. */
  ghost predicate IsMark(s: State, proc: Id, p: Process, v: Id) {
    && proc in s.procs && ProcessOk(s.tables, p) && !IsSaving(p)
    && v in s.tables.versions && StillMarks(s.procs[proc], v) && Wins(s.procs[proc], v)
    && (p.Confirm? <==> s.procs[proc].Confirm?)
    && AuditDone(p) == AuditDone(s.procs[proc])
    && (forall w :: Wins(p, w) <==> Wins(s.procs[proc], w))
    && (forall w :: StillMarks(p, w) <==> StillMarks(s.procs[proc], w) && w != v)
  }

  function Marked(t: Tables, v: Id): Tables
    requires v in t.versions
  {
    t.SetProjectStatus(t.versions[v].project, StatusFor(t.versions[v].status))
  }

  lemma MarkWinners(s: State, proc: Id, p: Process, v: Id)
    requires WinnersOk(s) && IsMark(s, proc, p, v)
    ensures WinnersOk(Put(s, proc, p, Marked(s.tables, v)))
  {
  }

  lemma MarkProjects(s: State, proc: Id, p: Process, v: Id)
    requires RowsOk(s.tables) && WinnersOk(s) && ProjectsOk(s) && IsMark(s, proc, p, v)
    ensures ProjectsOk(Put(s, proc, p, Marked(s.tables, v)))
  {
    assert s.winner[v] == proc;
  }

  lemma MarkStep(s: State, proc: Id, p: Process, v: Id)
    requires Core(s) && IsMark(s, proc, p, v)
    ensures Core(Put(s, proc, p, Marked(s.tables, v)))
  {
    SavingProjectsUnused(s);
    Frame(s.tables, Marked(s.tables, v), p);
    ProcessesMove(s, proc, p, Marked(s.tables, v), s.winner);
    MarkWinners(s, proc, p, v);
    MarkProjects(s, proc, p, v);
  }

  /** A process wins a proposed version. */
  ghost predicate IsWin(s: State, proc: Id, p: Process, v: Id) {
    && proc in s.procs && s.tables.HasStatus(v, Proposed) && !IsSaving(p)
    && (p.Confirm? <==> s.procs[proc].Confirm?)
    && ProcessOk(s.tables.Transition(v, Proposed, Prize(p)), p)
    && (forall w :: Wins(p, w) <==> Wins(s.procs[proc], w) || w == v)
    && (forall w :: StillMarks(p, w) <==> w == v)
    && (forall w :: !StillMarks(s.procs[proc], w))
    && !AuditDone(p) && (s.procs[proc].Confirm? ==> forall w :: !Wins(s.procs[proc], w))
  }

  /** The status a process moves a version to: committed for a confirm, superseded for an edit. */
  function Prize(p: Process): VersionStatus {
    if p.Confirm? then Committed else Superseded
  }

  lemma NobodyWonProposed(s: State, v: Id)
    requires WinnersOk(s) && s.tables.HasStatus(v, Proposed)
    ensures v !in s.winner
    ensures forall i :: i in s.procs ==> !Wins(s.procs[i], v)
  {
  }

  lemma WinWinners(s: State, proc: Id, p: Process, v: Id)
    requires WinnersOk(s) && IsWin(s, proc, p, v)
    ensures WinnersOk(Win(s, proc, p, v, Prize(p)))
  {
    NobodyWonProposed(s, v);
    var n := Win(s, proc, p, v, Prize(p));
    forall w | w in n.winner
      ensures && w in n.tables.versions && n.winner[w] in n.procs && Wins(n.procs[n.winner[w]], w)
              && n.tables.versions[w].status == if n.procs[n.winner[w]].Confirm? then Committed else Superseded
    {
      if w != v {
        assert w in s.winner;
      }
    }
  }

  lemma WinProjects(s: State, proc: Id, p: Process, v: Id)
    requires WinnersOk(s) && ProjectsOk(s) && IsWin(s, proc, p, v)
    ensures ProjectsOk(Win(s, proc, p, v, Prize(p)))
  {
    NobodyWonProposed(s, v);
  }

  lemma WinAudits(s: State, proc: Id, p: Process, v: Id)
    requires WinnersOk(s) && AuditsOk(s) && IsWin(s, proc, p, v)
    ensures AuditsOk(Win(s, proc, p, v, Prize(p)))
  {
    NobodyWonProposed(s, v);
  }

  lemma WinStep(s: State, proc: Id, p: Process, v: Id)
    requires Core(s) && IsWin(s, proc, p, v)
    ensures Core(Win(s, proc, p, v, Prize(p)))
  {
    SavingProjectsUnused(s);
    ProcessesMove(s, proc, p, s.tables.Transition(v, Proposed, Prize(p)), s.winner[v := proc]);
    WinWinners(s, proc, p, v);
    WinProjects(s, proc, p, v);
    WinAudits(s, proc, p, v);
  }

  // The audit log -------------------------------------------------------------------

  lemma ConfirmsStep(audits: seq<Audit>, a: Audit, v: Id)
    ensures Confirms(audits + [a], v) ==
            Confirms(audits, v) + if a.action == ConfirmedPlan && a.entity == v then 1 else 0
  {
    assert (audits + [a])[..|audits|] == audits;
  }

  /** An audit that is no confirmation leaves everything else as it is. */
  lemma OtherAuditStep(s: State, proc: Id, p: Process, a: Audit)
    requires Core(s) && IsQuiet(s, proc, p) && a.action != ConfirmedPlan
    ensures Core(Put(s, proc, p, s.tables.AddAudit(a)))
  {
    QuietStep(s, proc, p);
    var n := Put(s, proc, p, s.tables);
    AddAuditKeeps(n, a);
    forall v ensures Confirms(n.tables.audits + [a], v) == Confirms(n.tables.audits, v) {
      ConfirmsStep(n.tables.audits, a, v);
    }
    assert Put(s, proc, p, s.tables.AddAudit(a)) == n.(tables := n.tables.AddAudit(a));
  }

  lemma AddAuditKeeps(s: State, a: Audit)
    requires RowsOk(s.tables) && ProcessesOk(s) && WinnersOk(s) && ProjectsOk(s)
    ensures var n := s.(tables := s.tables.AddAudit(a));
            RowsOk(n.tables) && ProcessesOk(n) && WinnersOk(n) && ProjectsOk(n)
  {
    SavingProjectsUnused(s);
    var n := s.(tables := s.tables.AddAudit(a));
    forall i | i in s.procs ensures ProcessOk(n.tables, n.procs[i]) {
      assert ProcessOk(s.tables, s.procs[i]);
      Frame(s.tables, n.tables, s.procs[i]);
    }
  }

  /** The winner of a version writes its confirmation. */
  lemma ConfirmAuditStep(s: State, proc: Id, actor: Option<Id>)
    requires Core(s) && proc in s.procs && s.procs[proc].Confirm? && s.procs[proc].cpc.Auditing?
    ensures var p := s.procs[proc];
            Core(Put(s, proc, p.(cpc := Marking(p.cpc.project)),
                    s.tables.AddAudit(Audit(actor, ConfirmedPlan, p.target))))
  {
    var p := s.procs[proc];
    var q := p.(cpc := Marking(p.cpc.project));
    var a := Audit(actor, ConfirmedPlan, p.target);
    var n := Put(s, proc, q, s.tables);
    assert ProcessOk(s.tables, p);
    SavingProjectsUnused(s);
    ProcessesMove(s, proc, q, s.tables, s.winner);
    RoleKept(s, proc, q);
    AddAuditKeeps(n, a);
    assert Wins(p, p.target);
    forall v
      ensures Confirms(n.tables.audits + [a], v) ==
              if v in s.winner && s.winner[v] in n.procs && AuditDone(n.procs[s.winner[v]]) then 1 else 0
    {
      ConfirmsStep(s.tables.audits, a, v);
      if v in s.winner && s.winner[v] == proc {
        assert Wins(s.procs[proc], v);
      }
    }
  }

  lemma RoleKept(s: State, proc: Id, q: Process)
    requires WinnersOk(s) && ProjectsOk(s) && proc in s.procs && SameRole(s.procs[proc], q)
    ensures WinnersOk(Put(s, proc, q, s.tables)) && ProjectsOk(Put(s, proc, q, s.tables))
  {
  }

  // New rows ------------------------------------------------------------------------

  /** An edit starts a proposal with a project nobody has seen. */
  lemma CreateStep(s: State, proc: Id, project: Id)
    requires Core(s) && IsEditAt(s, proc, Thinking) && project !in s.tables.projects
    ensures Core(Put(s, proc, s.procs[proc].(epc := Saving(project)), s.tables.CreateProject(project)))
  {
    var p, t := s.procs[proc], s.tables;
    var q, u := p.(epc := Saving(project)), t.CreateProject(project);
    assert ProcessOk(t, p);
    assert Unused(u, project);
    SavingProjectsUnused(s);
    ProcessesMove(s, proc, q, u, s.winner);
    CreatedRest(s, proc, q, project);
  }

  lemma CreatedRest(s: State, proc: Id, q: Process, project: Id)
    requires WinnersOk(s) && ProjectsOk(s) && AuditsOk(s) && RowsOk(s.tables)
    requires proc in s.procs && SameRole(s.procs[proc], q) && q.Edit? && project !in s.tables.projects
    ensures var n := Put(s, proc, q, s.tables.CreateProject(project));
            WinnersOk(n) && ProjectsOk(n) && AuditsOk(n) && RowsOk(n.tables)
  {
    RoleKept(s, proc, q);
  }

  /** The proposal's version is saved for the project made before. */
  lemma SaveStep(s: State, proc: Id, version: Id, payload: PlanResult)
    requires Core(s) && proc in s.procs && IsSaving(s.procs[proc]) && version !in s.tables.versions
    ensures Core(Put(s, proc, s.procs[proc].(epc := AuditingNew(s.procs[proc].epc.project, version)),
                     s.tables.SaveVersion(version, s.procs[proc].epc.project, Proposed, payload)))
  {
    var p, t := s.procs[proc], s.tables;
    var q := p.(epc := AuditingNew(p.epc.project, version));
    var u := t.SaveVersion(version, p.epc.project, Proposed, payload);
    assert ProcessOk(t, p);
    SavingProjectsUnused(s);
    ProcessesMove(s, proc, q, u, s.winner);
    SavedRest(s, proc, q, version, payload);
  }

  lemma SavedRest(s: State, proc: Id, q: Process, version: Id, payload: PlanResult)
    requires WinnersOk(s) && ProjectsOk(s) && AuditsOk(s) && RowsOk(s.tables)
    requires proc in s.procs && IsSaving(s.procs[proc]) && Unused(s.tables, s.procs[proc].epc.project)
    requires SameRole(s.procs[proc], q) && version !in s.tables.versions
    ensures var n := Put(s, proc, q, s.tables.SaveVersion(version, s.procs[proc].epc.project, Proposed, payload));
            WinnersOk(n) && ProjectsOk(n) && AuditsOk(n) && RowsOk(n.tables)
  {
    RoleKept(s, proc, q);
  }

  // The core over all events ----------------------------------------------------------

  /** The chats and the record of who was asked are no part of the core. */
  lemma CoreReads(s: State, n: State)
    requires Core(s) && n.tables == s.tables && n.procs == s.procs && n.winner == s.winner
    ensures Core(n)
  {
  }

  lemma CoreProcess(s: State, proc: Id)
    requires Core(s) && proc in s.procs
    ensures ProcessOk(s.tables, s.procs[proc]) && WinnersOk(s)
  {
  }

  lemma ConfirmKeepsCore(s: State, proc: Id)
    requires Core(s) && proc in s.procs && s.procs[proc].Confirm?
    ensures Core(StepConfirm(s, proc, s.procs[proc]))
  {
    hide Core, WinnersOk, Unused;
    CoreProcess(s, proc);
    var p := s.procs[proc];
    match p.cpc
    case Reading =>
      if p.target in s.tables.versions {
        var q := p.(cpc := Switching(s.tables.versions[p.target].project));
        QuietStep(s, proc, q);
        CoreReads(Put(s, proc, q, s.tables), StepConfirm(s, proc, p));
      } else {
        QuietStep(s, proc, p.(cpc := Failed(None)));
      }
    case Switching(project) =>
      if s.tables.HasStatus(p.target, Proposed) {
        WinStep(s, proc, p.(cpc := Auditing(project)), p.target);
      } else {
        QuietStep(s, proc, p.(cpc := Rereading));
      }
    case Rereading =>
      var status := if p.target in s.tables.versions then Some(s.tables.versions[p.target].status) else None;
      QuietStep(s, proc, p.(cpc := Failed(status)));
    case Auditing(project) =>
      ConfirmAuditStep(s, proc, p.actor);
    case Marking(project) =>
      WonStatus(s, proc, p.target);
      MarkStep(s, proc, p.(cpc := Finished), p.target);
    case _ =>
      if p.from.Some? {
        QuietStep(s, proc, p.(from := None));
        CoreReads(Put(s, proc, p.(from := None), s.tables), StepConfirm(s, proc, p));
      }
  }

  lemma WonStatus(s: State, proc: Id, v: Id)
    requires WinnersOk(s) && proc in s.procs && Wins(s.procs[proc], v)
    ensures s.tables.HasStatus(v, Prize(s.procs[proc]))
  {
    assert v in s.winner && s.winner[v] == proc;
  }

  lemma RetireKeepsCore(s: State, proc: Id)
    requires Core(s) && proc in s.procs && s.procs[proc].Edit? && s.procs[proc].epc.Retiring?
    ensures Core(StepEdit(s, proc, s.procs[proc]))
  {
    hide Core, WinnersOk, Unused;
    CoreProcess(s, proc);
    var p := s.procs[proc];
    if s.tables.HasStatus(p.prior.value, Proposed) {
      WinStep(s, proc, p.(retired := true, epc := Cancelling(p.epc.priorProject, p.epc.next)), p.prior.value);
    } else {
      QuietStep(s, proc, p.(epc := Rearming(p.epc.next)));
    }
  }

  lemma EditKeepsCore(s: State, proc: Id)
    requires Core(s) && proc in s.procs && s.procs[proc].Edit?
    ensures Core(StepEdit(s, proc, s.procs[proc]))
  {
    hide Core, WinnersOk, Unused;
    CoreProcess(s, proc);
    var p := s.procs[proc];
    match p.epc
    case AuditingNew(project, next) =>
      OtherAuditStep(s, proc, p.(epc := Stashing(next)), Audit(None, AddedProject, project));
    case Stashing(next) =>
      var q := p.(epc := if p.looping then ReadingOld(next) else Closed);
      QuietStep(s, proc, q);
      CoreReads(Put(s, proc, q, s.tables), StepEdit(s, proc, p));
    case ReadingOld(next) =>
      if p.prior.Some? {
        QuietStep(s, proc, p.(epc := Retiring(s.tables.versions[p.prior.value].project, next)));
      } else {
        QuietStep(s, proc, p.(epc := Rearming(next)));
      }
    case Retiring(priorProject, next) =>
      RetireKeepsCore(s, proc);
    case Cancelling(priorProject, next) =>
      WonStatus(s, proc, p.prior.value);
      MarkStep(s, proc, p.(epc := Rearming(next)), p.prior.value);
    case Rearming(next) =>
      QuietStep(s, proc, p.(epc := Closed));
      CoreReads(Put(s, proc, p.(epc := Closed), s.tables), StepEdit(s, proc, p));
    case _ =>
  }

  lemma ArrivalKeepsCore(s: State, e: Event)
    requires Core(s) && ChatsOk(s) && Enabled(s, e) && !e.Continue?
    ensures Core(Do(s, e))
  {
    match e
    case StartConfirm(proc, target, actor) => QuietStep(s, proc, Confirm(target, actor, None, Reading));
    case PressEdit(chat, target) => CoreReads(s, Do(s, e));
    case Message(proc, chat) =>
      var c := ChatOf(s, chat);
      QuietStep(s, proc, Edit(chat, if c.looping then c.pending else None, c.looping, false, Thinking));
    case TypeOk(proc, chat, actor) =>
      QuietStep(s, proc, Confirm(ChatOf(s, chat).pending.value, actor, Some(chat), Reading));
    case GiveUp(proc) =>
      assert ProcessOk(s.tables, s.procs[proc]);
      QuietStep(s, proc, s.procs[proc].(epc := Closed));
    case BeginProject(proc, project) => CreateStep(s, proc, project);
    case SaveProposal(proc, version, payload) =>
      SaveStep(s, proc, version, payload);
      var p := s.procs[proc];
      CoreReads(Put(s, proc, p.(epc := AuditingNew(p.epc.project, version)),
                    s.tables.SaveVersion(version, p.epc.project, Proposed, payload)), Do(s, e));
  }

  lemma ConfirmEvolves(s: State, proc: Id, p: Process)
    requires p.Confirm?
    ensures Evolves(s.tables, StepConfirm(s, proc, p).tables)
  {
  }

  lemma EditEvolves(s: State, proc: Id, p: Process)
    requires p.Edit?
    ensures Evolves(s.tables, StepEdit(s, proc, p).tables)
  {
  }

  lemma EventEvolves(s: State, e: Event)
    requires Enabled(s, e)
    ensures Evolves(s.tables, Do(s, e).tables)
  {
    hide StepConfirm, StepEdit;
    if e.Continue? {
      if s.procs[e.proc].Confirm? {
        ConfirmEvolves(s, e.proc, s.procs[e.proc]);
      } else {
        EditEvolves(s, e.proc, s.procs[e.proc]);
      }
    }
  }

  // Chats -------------------------------------------------------------------------------

  /** What a chat has pending, now or before, is saved. */
  ghost predicate ChatOk(t: Tables, c: Chat) {
    && (c.pending.Some? ==> c.pending.value in t.versions)
    && (forall v :: v in c.chain ==> v in t.versions)
  }

  ghost predicate ChatsOk(s: State) {
    forall c :: c in s.chats ==> ChatOk(s.tables, s.chats[c])
  }

  /** A step stores in a chat nothing, or a saved version. */
  lemma StepChats(s: State, proc: Id)
    requires proc in s.procs && ProcessOk(s.tables, s.procs[proc]) && ChatsOk(s)
    ensures var n := Do(s, Continue(proc));
            forall c :: c in n.chats ==> ChatOk(s.tables, n.chats[c])
  {
  }

  lemma ChatsKept(s: State, e: Event)
    requires Core(s) && ChatsOk(s) && Enabled(s, e)
    ensures ChatsOk(Do(s, e))
  {
    hide StepConfirm, StepEdit, Core, ProcessOk;
    EventEvolves(s, e);
    if e.Continue? {
      CoreProcess(s, e.proc);
      StepChats(s, e.proc);
    }
  }

  // Who was asked -----------------------------------------------------------------------

  function Tried(s: State): set<Id> {
    s.asked + s.taken
  }

  /** A process is on its way to move version `v`. */
  predicate Pursues(p: Process, v: Id) {
    if p.Confirm? then p.cpc.Switching? && p.target == v
    else p.prior == Some(v) && (p.epc.AuditingNew? || p.epc.Stashing? || p.epc.ReadingOld? || p.epc.Retiring?)
  }

  ghost predicate Pursued(s: State, v: Id) {
    exists i :: i in s.procs && Pursues(s.procs[i], v)
  }

  /** A version that moved had been tried; one that was tried has moved, or somebody is at it. */
  ghost predicate HistoryOk(s: State) {
    && (forall v :: v in s.tables.versions && s.tables.versions[v].status != Proposed ==> v in Tried(s))
    && (forall v :: v in Tried(s) ==> v in s.tables.versions && (s.tables.HasStatus(v, Proposed) ==> Pursued(s, v)))
    && (forall i, v :: i in s.procs && Pursues(s.procs[i], v) ==> v in Tried(s))
  }

  /** One process moves to `q`, and tries what it did not before. */
  ghost predicate IsTry(s: State, n: State, proc: Id, q: Process) {
    && n.procs == s.procs[proc := q]
    && Tried(s) <= Tried(n)
    && (forall v :: v in Tried(n) - Tried(s) ==> v in n.tables.versions && Pursues(q, v))
    && (forall v :: v in n.tables.versions && n.tables.versions[v].status != Proposed ==> v in Tried(n))
    && (forall v :: proc in s.procs && Pursues(s.procs[proc], v) && n.tables.HasStatus(v, Proposed) ==> Pursues(q, v))
    && (forall v :: Pursues(q, v) ==> v in Tried(n))
  }

  lemma TryKeeps(s: State, n: State, proc: Id, q: Process)
    requires HistoryOk(s) && Evolves(s.tables, n.tables) && IsTry(s, n, proc, q)
    ensures HistoryOk(n)
  {
    forall v | v in Tried(n)
      ensures v in n.tables.versions && (n.tables.HasStatus(v, Proposed) ==> Pursued(n, v))
    {
      if v in Tried(s) {
        if n.tables.HasStatus(v, Proposed) {
          assert s.tables.HasStatus(v, Proposed);
          var i :| i in s.procs && Pursues(s.procs[i], v);
          assert Pursues(n.procs[i], v);
        }
      } else {
        assert proc in n.procs && Pursues(n.procs[proc], v);
      }
    }
    forall i, v | i in n.procs && Pursues(n.procs[i], v) ensures v in Tried(n) {
      if i != proc {
        assert Pursues(s.procs[i], v);
      }
    }
  }

  lemma HistoryKept(s: State, e: Event)
    requires Core(s) && ChatsOk(s) && HistoryOk(s) && Enabled(s, e)
    ensures HistoryOk(Do(s, e))
  {
    hide Core, ChatsOk;
    EventEvolves(s, e);
    var n := Do(s, e);
    match e
    case PressEdit(chat, target) =>
      forall v | v in Tried(n) && n.tables.HasStatus(v, Proposed) ensures Pursued(n, v) {
        assert Pursued(s, v);
      }
    case Continue(proc) =>
      ContinueTries(s, proc);
    case StartConfirm(proc, target, actor) => TryKeeps(s, n, proc, n.procs[proc]);
    case Message(proc, chat) => TryKeeps(s, n, proc, n.procs[proc]);
    case TypeOk(proc, chat, actor) => TryKeeps(s, n, proc, n.procs[proc]);
    case GiveUp(proc) => TryKeeps(s, n, proc, n.procs[proc]);
    case BeginProject(proc, project) => TryKeeps(s, n, proc, n.procs[proc]);
    case SaveProposal(proc, version, payload) =>
      CoreProcess(s, proc);
      SaveTries(s, e);
      TryKeeps(s, n, proc, n.procs[proc]);
  }

  lemma SaveTries(s: State, e: Event)
    requires HistoryOk(s) && Enabled(s, e) && e.SaveProposal? && EditOk(s.tables, s.procs[e.proc])
    ensures IsTry(s, Do(s, e), e.proc, Do(s, e).procs[e.proc])
  {
  }

  lemma ConfirmTries(s: State, proc: Id)
    requires HistoryOk(s) && proc in s.procs && s.procs[proc].Confirm? && ConfirmOk(s.tables, s.procs[proc])
    ensures var n := StepConfirm(s, proc, s.procs[proc]); n == s || (proc in n.procs && IsTry(s, n, proc, n.procs[proc]))
  {
  }

  lemma RetireTries(s: State, proc: Id)
    requires HistoryOk(s) && proc in s.procs && s.procs[proc].Edit? && s.procs[proc].epc.Retiring?
    requires EditOk(s.tables, s.procs[proc])
    ensures var n := StepEdit(s, proc, s.procs[proc]); proc in n.procs && IsTry(s, n, proc, n.procs[proc])
  {
    var p := s.procs[proc];
    assert Pursues(p, p.prior.value);
  }

  /** Until it tries to retire the old version, an edit keeps pursuing it. */
  lemma EditPursues(s: State, proc: Id)
    requires proc in s.procs && s.procs[proc].Edit? && !s.procs[proc].epc.Retiring?
    requires EditOk(s.tables, s.procs[proc])
    ensures var n := StepEdit(s, proc, s.procs[proc]);
            && n.tables.versions == s.tables.versions && n.asked == s.asked && n.taken == s.taken
            && (n == s || (proc in n.procs && n.procs == s.procs[proc := n.procs[proc]]))
            && forall v :: Pursues(s.procs[proc], v) <==> Pursues(n.procs[proc], v)
  {
    hide Unused;
  }

  lemma EditTries(s: State, proc: Id)
    requires HistoryOk(s) && proc in s.procs && s.procs[proc].Edit? && !s.procs[proc].epc.Retiring?
    requires EditOk(s.tables, s.procs[proc])
    ensures var n := StepEdit(s, proc, s.procs[proc]); n == s || (proc in n.procs && IsTry(s, n, proc, n.procs[proc]))
  {
    hide StepEdit, EditOk, Pursues;
    EditPursues(s, proc);
  }

  lemma ContinueTries(s: State, proc: Id)
    requires Core(s) && HistoryOk(s) && proc in s.procs
    ensures HistoryOk(Do(s, Continue(proc)))
  {
    hide Core, HistoryOk, IsTry, StepConfirm, StepEdit, EditOk, ConfirmOk;
    var p, n := s.procs[proc], Do(s, Continue(proc));
    CoreProcess(s, proc);
    EventEvolves(s, Continue(proc));
    if p.Confirm? {
      ConfirmTries(s, proc);
    } else if p.epc.Retiring? {
      RetireTries(s, proc);
    } else {
      EditTries(s, proc);
    }
    if n != s {
      TryKeeps(s, n, proc, n.procs[proc]);
    }
  }

  // All events ------------------------------------------------------------------------

  ghost predicate Inv(s: State) {
    Core(s) && ChatsOk(s) && HistoryOk(s)
  }

  /** Every event keeps the invariant. */
  lemma {:induction false} EventPreserves(s: State, e: Event)
    requires Inv(s) && Enabled(s, e)
    ensures Inv(Do(s, e))
  {
    hide Core, ChatsOk, HistoryOk;
    if e.Continue? {
      if s.procs[e.proc].Confirm? {
        ConfirmKeepsCore(s, e.proc);
      } else {
        EditKeepsCore(s, e.proc);
      }
    } else {
      ArrivalKeepsCore(s, e);
    }
    ChatsKept(s, e);
    HistoryKept(s, e);
  }

  // Whole runs ----------------------------------------------------------------------

  lemma {:induction false} RunPreserves(s: State, events: seq<Event>, t: State)
    requires Inv(s) && Runs(s, events, t)
    ensures Inv(t)
    decreases |events|
  {
    hide Inv, Do, Enabled;
    if events != [] {
      var init, e := events[..|events| - 1], events[|events| - 1];
      var m :| Runs(s, init, m) && Enabled(m, e) && t == Do(m, e);
      RunPreserves(s, init, m);
      EventPreserves(m, e);
    }
  }

  /** The invariant holds after every interleaving of any number of confirms and edits. */
  lemma {:induction false} Reachable(events: seq<Event>, t: State)
    requires Runs(EMPTY, events, t)
    ensures Inv(t)
  {
    RunPreserves(EMPTY, events, t);
  }

  /** Over any run a version keeps its project, and its status changes at most once: from
      proposed to committed, or from proposed to superseded. */
  lemma {:induction false} StatusMovesOnce(s: State, events: seq<Event>, t: State, v: Id)
    requires Runs(s, events, t) && v in s.tables.versions
    ensures v in t.tables.versions && t.tables.versions[v].project == s.tables.versions[v].project
    ensures t.tables.versions[v].status == s.tables.versions[v].status ||
            (s.tables.versions[v].status == Proposed && t.tables.versions[v].status in {Committed, Superseded})
    decreases |events|
  {
    if events != [] {
      var init, e := events[..|events| - 1], events[|events| - 1];
      var m :| Runs(s, init, m) && Enabled(m, e) && t == Do(m, e);
      StatusMovesOnce(s, init, m, v);
      EventEvolves(m, e);
    }
  }

  /** Each version is won by at most one process, and confirmed in the audit log at most once,
      and only when it is committed. */
  lemma OneWinner(events: seq<Event>, t: State, v: Id)
    requires Runs(EMPTY, events, t)
    ensures forall i, j :: i in t.procs && j in t.procs && Wins(t.procs[i], v) && Wins(t.procs[j], v) ==> i == j
    ensures Confirms(t.tables.audits, v) <= 1
    ensures Confirms(t.tables.audits, v) == 1 ==> t.tables.HasStatus(v, Committed)
  {
    Reachable(events, t);
    WinnersDecide(t, v);
  }

  lemma WinnersDecide(t: State, v: Id)
    requires WinnersOk(t) && AuditsOk(t)
    ensures forall i, j :: i in t.procs && j in t.procs && Wins(t.procs[i], v) && Wins(t.procs[j], v) ==> i == j
    ensures Confirms(t.tables.audits, v) <= 1
    ensures Confirms(t.tables.audits, v) == 1 ==> t.tables.HasStatus(v, Committed)
  {
  }

  /** A confirm has ended and cleared its chat; an edit is done. */
  predicate AtRest(p: Process) {
    if p.Confirm? then p.from.None? && (p.cpc.Finished? || p.cpc.Failed?) else p.epc == Closed
  }

  ghost predicate Quiescent(s: State) {
    forall i :: i in s.procs ==> AtRest(s.procs[i])
  }

  /** When all processes have finished, a project is planning, committed or cancelled exactly as
      its version is proposed, committed or superseded, and exactly the committed versions have
      their confirmation in the audit log. */
  lemma AgreementAtRest(events: seq<Event>, t: State, v: Id)
    requires Runs(EMPTY, events, t) && Quiescent(t) && v in t.tables.versions
    ensures var project := t.tables.versions[v].project;
            && project in t.tables.projects
            && (t.tables.projects[project] == Planning <==> t.tables.HasStatus(v, Proposed))
            && (t.tables.projects[project] == ProjectCommitted <==> t.tables.HasStatus(v, Committed))
            && (t.tables.projects[project] == Cancelled <==> t.tables.HasStatus(v, Superseded))
    ensures Confirms(t.tables.audits, v) == if t.tables.HasStatus(v, Committed) then 1 else 0
  {
    Reachable(events, t);
    assert ProjectsOk(t) && AuditsOk(t) && WinnersOk(t) && RowsOk(t.tables);
    if v in t.winner {
      var p := t.procs[t.winner[v]];
      assert !StillMarks(p, v);
    }
  }

  /** When all processes have finished, a version is still proposed exactly when nobody has tried
      to confirm it and no edit has taken it for the one its proposal replaces. Messages of one chat
      may overlap. */
  lemma {:induction false} StillProposed(events: seq<Event>, t: State, v: Id)
    requires Runs(EMPTY, events, t) && Quiescent(t) && v in t.tables.versions
    ensures t.tables.HasStatus(v, Proposed) <==> v !in t.asked && v !in t.taken
  {
    Reachable(events, t);
    assert HistoryOk(t);
    forall i | i in t.procs ensures !Pursues(t.procs[i], v) {
      assert AtRest(t.procs[i]);
    }
    assert !Pursued(t, v);
  }

  /** Once a version is committed, no later event of any process cancels its project. */
  lemma CommittedNeverCancelled(before: seq<Event>, s: State, after: seq<Event>, t: State, v: Id)
    requires Runs(EMPTY, before, s) && s.tables.HasStatus(v, Committed)
    requires Runs(s, after, t)
    ensures t.tables.HasStatus(v, Committed)
    ensures t.tables.versions[v].project in t.tables.projects
    ensures t.tables.projects[t.tables.versions[v].project] != Cancelled
  {
    Reachable(before, s);
    RunPreserves(s, after, t);
    StatusMovesOnce(s, after, t, v);
  }

  // One chat at a time ------------------------------------------------------------------

  predicate OfChat(p: Process, chat: Id) {
    if p.Confirm? then p.from == Some(chat) else p.chat == chat
  }

  predicate InFlight(s: State, proc: Id, chat: Id) {
    proc in s.procs && OfChat(s.procs[proc], chat) && !AtRest(s.procs[proc])
  }

  /** Somebody is still at work on a message of the chat. */
  ghost predicate Busy(s: State, chat: Id) {
    exists i :: InFlight(s, i, chat)
  }

  predicate IsInput(e: Event, chat: Id) {
    (e.PressEdit? || e.Message? || e.TypeOk?) && e.chat == chat
  }

  /** A run in which the inputs of one chat do not overlap: each finds the chat not busy. */
  ghost predicate Orderly(events: seq<Event>, t: State, chat: Id)
    decreases |events|
  {
    if events == [] then t == EMPTY
    else
      var init, e := events[..|events| - 1], events[|events| - 1];
      exists m :: Orderly(init, m, chat) && Enabled(m, e) && t == Do(m, e) && (IsInput(e, chat) ==> !Busy(m, chat))
  }

  lemma {:induction false} OrderlyRuns(events: seq<Event>, t: State, chat: Id)
    requires Orderly(events, t, chat)
    ensures Runs(EMPTY, events, t)
    decreases |events|
  {
    hide Do, Enabled, Busy;
    if events != [] {
      var init, e := events[..|events| - 1], events[|events| - 1];
      var m :| Orderly(init, m, chat) && Enabled(m, e) && t == Do(m, e) && (IsInput(e, chat) ==> !Busy(m, chat));
      OrderlyRuns(init, m, chat);
    }
  }

  /** Between its stash and its attempt to retire it, an edit still has the old version open. */
  predicate HasOpen(p: Process, v: Id) {
    p.Edit? && p.prior == Some(v) && (p.epc.ReadingOld? || p.epc.Retiring?)
  }

  /** What the chat has pending while process `p` is at work on its message. */
  predicate InStep(c: Chat, p: Process) {
    p.Edit? ==>
      match p.epc
      case Thinking => c.looping == p.looping && (p.looping ==> c.pending == p.prior)
      case Saving(_) => c.looping == p.looping && (p.looping ==> c.pending == p.prior)
      case AuditingNew(_, _) => c.looping == p.looping && (p.looping ==> c.pending == p.prior)
      case Stashing(_) => c.looping == p.looping && (p.looping ==> c.pending == p.prior)
      case ReadingOld(next) => c.looping && c.pending == Some(next)
      case Retiring(_, next) => c.looping && c.pending == Some(next)
      case Cancelling(_, next) => c.looping && c.pending == Some(next)
      case Rearming(next) => c.looping && c.pending == Some(next)
      case Closed => true
  }

  ghost predicate OneAtATime(s: State, chat: Id) {
    && (forall i, j :: InFlight(s, i, chat) && InFlight(s, j, chat) ==> i == j)
    && (forall i :: InFlight(s, i, chat) ==> InStep(ChatOf(s, chat), s.procs[i]))
    && (!ChatOf(s, chat).looping ==> ChatOf(s, chat).chain == {})
  }

  ghost predicate IsOpen(s: State, chat: Id, v: Id) {
    ChatOf(s, chat).pending == Some(v) || exists i :: InFlight(s, i, chat) && HasOpen(s.procs[i], v)
  }

  /** The versions of the chain that may still be proposed. */
  ghost predicate ChainOk(s: State, chat: Id) {
    forall v :: v in ChatOf(s, chat).chain && s.tables.HasStatus(v, Proposed) ==> IsOpen(s, chat, v)
  }

  lemma ConfirmElsewhere(s: State, proc: Id, chat: Id)
    requires proc in s.procs && s.procs[proc].Confirm? && !OfChat(s.procs[proc], chat)
    ensures var n := StepConfirm(s, proc, s.procs[proc]);
            && ChatOf(n, chat) == ChatOf(s, chat)
            && proc in n.procs && n.procs == s.procs[proc := n.procs[proc]] && !OfChat(n.procs[proc], chat)
  {
  }

  lemma EditElsewhere(s: State, proc: Id, chat: Id)
    requires proc in s.procs && s.procs[proc].Edit? && !OfChat(s.procs[proc], chat)
    ensures var n := StepEdit(s, proc, s.procs[proc]);
            && ChatOf(n, chat) == ChatOf(s, chat)
            && proc in n.procs && n.procs == s.procs[proc := n.procs[proc]] && !OfChat(n.procs[proc], chat)
  {
  }

  /** An event that is neither an input of the chat nor a step of its processes. */
  lemma ElsewhereSame(s: State, e: Event, chat: Id)
    requires Enabled(s, e) && !IsInput(e, chat)
    requires e.PressEdit? || (e.proc in s.procs ==> !OfChat(s.procs[e.proc], chat))
    ensures ChatOf(Do(s, e), chat) == ChatOf(s, chat)
    ensures forall i :: InFlight(Do(s, e), i, chat) <==> InFlight(s, i, chat)
    ensures forall i :: InFlight(s, i, chat) ==> i in Do(s, e).procs && Do(s, e).procs[i] == s.procs[i]
  {
    hide StepConfirm, StepEdit;
    if e.Continue? {
      if s.procs[e.proc].Confirm? {
        ConfirmElsewhere(s, e.proc, chat);
      } else {
        EditElsewhere(s, e.proc, chat);
      }
    }
  }

  lemma ElsewhereKeeps(s: State, e: Event, chat: Id)
    requires ChatsOk(s) && Enabled(s, e) && !IsInput(e, chat)
    requires e.PressEdit? || (e.proc in s.procs ==> !OfChat(s.procs[e.proc], chat))
    requires OneAtATime(s, chat) && ChainOk(s, chat)
    ensures OneAtATime(Do(s, e), chat) && ChainOk(Do(s, e), chat)
  {
    var n := Do(s, e);
    EventEvolves(s, e);
    ElsewhereSame(s, e, chat);
    ChainSaved(s, chat);
    hide Do, ChatOf, InFlight, InStep, ChatsOk;
    forall v | v in ChatOf(n, chat).chain && n.tables.HasStatus(v, Proposed)
      ensures IsOpen(n, chat, v)
    {
      assert s.tables.HasStatus(v, Proposed) && IsOpen(s, chat, v);
    }
  }

  lemma ChainSaved(s: State, chat: Id)
    requires ChatsOk(s)
    ensures forall v :: v in ChatOf(s, chat).chain ==> v in s.tables.versions
  {
  }

  lemma InputKeeps(s: State, e: Event, chat: Id)
    requires ChatsOk(s) && Enabled(s, e) && IsInput(e, chat) && !Busy(s, chat)
    requires OneAtATime(s, chat) && ChainOk(s, chat)
    ensures OneAtATime(Do(s, e), chat) && ChainOk(Do(s, e), chat)
  {
    var n := Do(s, e);
    assert forall i :: !InFlight(s, i, chat);
    if e.PressEdit? {
      assert forall i :: InFlight(n, i, chat) ==> InFlight(s, i, chat);
    } else {
      assert forall i :: InFlight(n, i, chat) && i != e.proc ==> InFlight(s, i, chat);
      assert ChatOf(n, chat) == ChatOf(s, chat);
    }
    forall v | v in ChatOf(n, chat).chain && n.tables.HasStatus(v, Proposed)
      ensures IsOpen(n, chat, v)
    {
      if !e.PressEdit? {
        assert IsOpen(s, chat, v);
      }
    }
  }

  /** A step of the one process at work keeps the chat in step with it. */
  lemma OwnStepInStep(s: State, e: Event, chat: Id)
    requires Enabled(s, e) && !e.PressEdit? && !IsInput(e, chat)
    requires e.proc in s.procs && OfChat(s.procs[e.proc], chat) && ProcessOk(s.tables, s.procs[e.proc])
    requires OneAtATime(s, chat)
    ensures OneAtATime(Do(s, e), chat)
  {
    hide Tables.Transition, Tables.SetProjectStatus, Tables.AddAudit, Tables.SaveVersion, Tables.CreateProject;
    var p, n := s.procs[e.proc], Do(s, e);
    if n != s {
      assert InFlight(s, e.proc, chat);
      assert forall i :: i != e.proc ==> (InFlight(n, i, chat) ==> InFlight(s, i, chat));
    }
  }

  lemma OwnStepChain(s: State, e: Event, chat: Id)
    requires ChatsOk(s) && Enabled(s, e) && !e.PressEdit? && !IsInput(e, chat)
    requires e.proc in s.procs && OfChat(s.procs[e.proc], chat) && ProcessOk(s.tables, s.procs[e.proc])
    requires OneAtATime(s, chat) && ChainOk(s, chat)
    ensures ChainOk(Do(s, e), chat)
  {
    var p, n := s.procs[e.proc], Do(s, e);
    if n != s {
      assert InFlight(s, e.proc, chat);
      forall v | v in ChatOf(n, chat).chain && n.tables.HasStatus(v, Proposed)
        ensures IsOpen(n, chat, v)
      {
        if ChatOf(n, chat).pending != Some(v) {
          OwnStepOpen(s, e, chat, v);
        }
      }
    }
  }

  /** A version of the chain that is left behind is still in the hands of the process at work. */
  lemma OwnStepOpen(s: State, e: Event, chat: Id, v: Id)
    requires ChatsOk(s) && Enabled(s, e) && !e.PressEdit? && !IsInput(e, chat)
    requires e.proc in s.procs && OfChat(s.procs[e.proc], chat) && ProcessOk(s.tables, s.procs[e.proc])
    requires InFlight(s, e.proc, chat)
    requires OneAtATime(s, chat) && ChainOk(s, chat)
    requires v in ChatOf(Do(s, e), chat).chain && Do(s, e).tables.HasStatus(v, Proposed)
    requires ChatOf(Do(s, e), chat).pending != Some(v)
    ensures InFlight(Do(s, e), e.proc, chat) && HasOpen(Do(s, e).procs[e.proc], v)
  {
    var p := s.procs[e.proc];
    EventEvolves(s, e);
    ChainSaved(s, chat);
    ChainGrows(s, e, chat);
    assert IsOpen(s, chat, v);
    if ChatOf(s, chat).pending != Some(v) {
      assert HasOpen(p, v);
    }
    OpenMoves(s, e, chat, v);
  }

  /** The chain only grows by what becomes pending. */
  lemma ChainGrows(s: State, e: Event, chat: Id)
    requires Enabled(s, e) && !IsInput(e, chat)
    ensures forall v :: v in ChatOf(Do(s, e), chat).chain && ChatOf(Do(s, e), chat).pending != Some(v) ==>
              v in ChatOf(s, chat).chain
  {
    hide Tables.Transition, Tables.SetProjectStatus, Tables.AddAudit, Tables.SaveVersion, Tables.CreateProject;
  }

  /** What was pending, or in the hands of the process, before its step. */
  lemma OpenMoves(s: State, e: Event, chat: Id, v: Id)
    requires Enabled(s, e) && !e.PressEdit? && !IsInput(e, chat)
    requires e.proc in s.procs && OfChat(s.procs[e.proc], chat) && ProcessOk(s.tables, s.procs[e.proc])
    requires InFlight(s, e.proc, chat) && InStep(ChatOf(s, chat), s.procs[e.proc])
    requires ChatOf(s, chat).looping && v in ChatOf(Do(s, e), chat).chain
    requires ChatOf(s, chat).pending == Some(v) || HasOpen(s.procs[e.proc], v)
    requires Do(s, e).tables.HasStatus(v, Proposed) && ChatOf(Do(s, e), chat).pending != Some(v)
    ensures InFlight(Do(s, e), e.proc, chat) && HasOpen(Do(s, e).procs[e.proc], v)
  {
  }

  lemma {:induction false} OrderlyKeeps(events: seq<Event>, t: State, chat: Id)
    requires Orderly(events, t, chat)
    ensures Inv(t) && OneAtATime(t, chat) && ChainOk(t, chat)
    decreases |events|
  {
    hide Do, Enabled, Core, ChatsOk, HistoryOk, OneAtATime, ChainOk, Busy;
    if events == [] {
      OrderlyStart(chat);
    } else {
      var init, e := events[..|events| - 1], events[|events| - 1];
      var m :| Orderly(init, m, chat) && Enabled(m, e) && t == Do(m, e) && (IsInput(e, chat) ==> !Busy(m, chat));
      OrderlyKeeps(init, m, chat);
      EventPreserves(m, e);
      OrderlyEvent(m, e, chat);
    }
  }

  lemma OrderlyStart(chat: Id)
    ensures Inv(EMPTY) && OneAtATime(EMPTY, chat) && ChainOk(EMPTY, chat)
  {
  }

  lemma OrderlyEvent(s: State, e: Event, chat: Id)
    requires Inv(s) && Enabled(s, e) && (IsInput(e, chat) ==> !Busy(s, chat))
    requires OneAtATime(s, chat) && ChainOk(s, chat)
    ensures OneAtATime(Do(s, e), chat) && ChainOk(Do(s, e), chat)
  {
    hide Core, ChatsOk, HistoryOk, OneAtATime, ChainOk, Busy;
    if IsInput(e, chat) {
      InputKeeps(s, e, chat);
    } else if !e.PressEdit? && e.proc in s.procs && OfChat(s.procs[e.proc], chat) {
      CoreProcess(s, e.proc);
      OwnStepInStep(s, e, chat);
      OwnStepChain(s, e, chat);
    } else {
      ElsewhereKeeps(s, e, chat);
    }
  }

  /** Where the inputs of a chat do not overlap, and the chat is not busy, every version it has had
      pending since its edit loop began is no longer proposed, except the one it has pending now.
      Other chats and confirms may do what they like. */
  lemma {:induction false} EditChain(events: seq<Event>, t: State, chat: Id, v: Id)
    requires Orderly(events, t, chat) && !Busy(t, chat)
    requires v in ChatOf(t, chat).chain && ChatOf(t, chat).pending != Some(v)
    ensures v in t.tables.versions && t.tables.versions[v].status != Proposed
  {
    OrderlyKeeps(events, t, chat);
    assert ChatsOk(t);
    assert !IsOpen(t, chat, v);
  }

  /** In any run, overlapping or not: once all have finished, the chain holds a stray proposal
      exactly when it holds a version, other than the pending one, that nobody tried to confirm and
      no edit took for the one it replaces. */
  lemma {:induction false} StrayExactly(events: seq<Event>, t: State, chat: Id)
    requires Runs(EMPTY, events, t) && Quiescent(t)
    ensures (exists v :: IsStray(t, chat, v)) <==>
            exists v :: v in ChatOf(t, chat).chain && ChatOf(t, chat).pending != Some(v) && v !in t.asked && v !in t.taken
  {
    Reachable(events, t);
    assert ChatsOk(t);
    forall v | v in ChatOf(t, chat).chain
      ensures IsStray(t, chat, v) <==> ChatOf(t, chat).pending != Some(v) && v !in t.asked && v !in t.taken
    {
      StillProposed(events, t, v);
    }
  }

  /** A proposal of the chain that is neither pending nor retired. */
  predicate IsStray(t: State, chat: Id, v: Id) {
    v in ChatOf(t, chat).chain && ChatOf(t, chat).pending != Some(v) && t.tables.HasStatus(v, Proposed)
  }
}
