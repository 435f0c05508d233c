/** Two edits of one chat at the same time: both replace the same old proposal, one of them retires
    it, and the proposal that does not end up pending is left behind. */
module Strays {
  import opened Wrappers
  import opened Models
  import opened Store
  import opened Lifecycle
  import opened Handlers

  const NO_PLAN := PlanResult([], [], None)

  lemma {:induction false} RunAlone(events: seq<Event>, s: State, proc: Id, n: nat) returns (more: seq<Event>)
    requires Runs(EMPTY, events, s) && proc in s.procs
    ensures Runs(EMPTY, more, Alone(s, proc, n))
    decreases n
  {
    hide Runs;
    if n == 0 {
      more := events;
    } else {
      RunOneMore(EMPTY, events, s, Continue(proc));
      more := RunAlone(events + [Continue(proc)], Do(s, Continue(proc)), proc, n - 1);
    }
  }

  /** What an edit has done when its proposal is pending. */
  ghost predicate HasStashed(s: State, t: State, proc: Id, project: Id, version: Id) {
    && proc in s.procs && s.procs[proc].Edit?
    && (var p := s.procs[proc];
        && t.procs == s.procs[proc := p.(epc := if p.looping then ReadingOld(version) else Closed)]
        && t.tables.versions == s.tables.versions[version := Version(project, Proposed, NO_PLAN)]
        && t.tables.projects == s.tables.projects[project := Planning]
        && t.chats == s.chats[p.chat := Stashed(ChatOf(s, p.chat), version)])
  }

  lemma StashCalls(s: State, proc: Id, project: Id, version: Id)
    requires IsEditAt(s, proc, Thinking) && project !in s.tables.projects && version !in s.tables.versions
    ensures var s1 := Do(s, BeginProject(proc, project));
            && Enabled(s1, SaveProposal(proc, version, NO_PLAN))
            && var s2 := Do(s1, SaveProposal(proc, version, NO_PLAN));
            && Enabled(s2, Continue(proc)) && Enabled(Do(s2, Continue(proc)), Continue(proc))
            && HasStashed(s, Do(Do(s2, Continue(proc)), Continue(proc)), proc, project, version)
  {
  }

  /** An edit makes its proposal undisturbed. */
  lemma Stash(events: seq<Event>, s: State, proc: Id, project: Id, version: Id) returns (more: seq<Event>, t: State)
    requires Runs(EMPTY, events, s)
    requires IsEditAt(s, proc, Thinking) && project !in s.tables.projects && version !in s.tables.versions
    ensures Runs(EMPTY, more, t) && HasStashed(s, t, proc, project, version)
  {
    StashCalls(s, proc, project, version);
    hide Do, Runs, HasStashed;
    var s1 := Do(s, BeginProject(proc, project));
    var s2 := Do(s1, SaveProposal(proc, version, NO_PLAN));
    var s3 := Do(s2, Continue(proc));
    RunOneMore(EMPTY, events, s, BeginProject(proc, project));
    var e1 := events + [BeginProject(proc, project)];
    RunOneMore(EMPTY, e1, s1, SaveProposal(proc, version, NO_PLAN));
    var e2 := e1 + [SaveProposal(proc, version, NO_PLAN)];
    RunOneMore(EMPTY, e2, s2, Continue(proc));
    RunOneMore(EMPTY, e2 + [Continue(proc)], s3, Continue(proc));
    more, t := e2 + [Continue(proc)] + [Continue(proc)], Do(s3, Continue(proc));
  }

  /** A first proposal, its edit button pressed, and two messages that both find it pending. */
  ghost predicate BothReading(s: State) {
    && s.procs == map[1 := Edit(1, None, false, false, Closed),
                      2 := Edit(1, Some(100), true, false, Thinking),
                      3 := Edit(1, Some(100), true, false, Thinking)]
    && s.tables.versions == map[100 := Version(10, Proposed, NO_PLAN)]
    && s.tables.projects == map[10 := Planning]
    && ChatOf(s, 1) == Chat(Some(100), true, {100})
  }

  lemma ReachBothReading() returns (events: seq<Event>, s: State)
    ensures Runs(EMPTY, events, s) && BothReading(s)
  {
    var s1 := Do(EMPTY, Message(1, 1));
    assert Runs(EMPTY, [], EMPTY);
    RunOneMore(EMPTY, [], EMPTY, Message(1, 1));
    var s2;
    events, s2 := Stash([] + [Message(1, 1)], s1, 1, 10, 100);
    FirstStashed(s1, s2);
    RunOneMore(EMPTY, events, s2, PressEdit(1, 100));
    events := events + [PressEdit(1, 100)];
    var s3 := Do(s2, PressEdit(1, 100));
    RunOneMore(EMPTY, events, s3, Message(2, 1));
    events := events + [Message(2, 1)];
    var s4 := Do(s3, Message(2, 1));
    RunOneMore(EMPTY, events, s4, Message(3, 1));
    events := events + [Message(3, 1)];
    s := Do(s4, Message(3, 1));
  }

  lemma FirstStashed(s1: State, s2: State)
    requires s1 == Do(EMPTY, Message(1, 1)) && HasStashed(s1, s2, 1, 10, 100)
    ensures s2.procs == map[1 := Edit(1, None, false, false, Closed)]
    ensures s2.tables.versions == map[100 := Version(10, Proposed, NO_PLAN)] && s2.tables.projects == map[10 := Planning]
  {
  }

  /** Two edits of one chat that overlap leave a proposal behind: all have finished, the version is
      still proposed, and the chat does not have it pending. */
  lemma OverlapLeavesStray() returns (events: seq<Event>, t: State)
    ensures Runs(EMPTY, events, t) && Quiescent(t) && IsStray(t, 1, 101)
    ensures ChatOf(t, 1).pending == Some(102) && t.tables.HasStatus(100, Superseded)
  {
    hide Runs, Do, Alone;
    var s;
    events, s := ReachBothReading();
    var s1;
    events, s1 := Stash(events, s, 2, 11, 101);
    events := RunAlone(events, s1, 2, 4);
    EditAlone(s1, 2);
    var s2 := Alone(s1, 2, 4);
    FirstDone(s, s1, s2);
    var s3;
    events, s3 := Stash(events, s2, 3, 12, 102);
    events := RunAlone(events, s3, 3, 4);
    EditAlone(s3, 3);
    t := Alone(s3, 3, 4);
    SecondDone(s2, s3, t);
  }

  /** The first edit has replaced the old proposal by its own. */
  ghost predicate OneDone(s: State) {
    && s.procs.Keys == {1, 2, 3} && AtRest(s.procs[1]) && AtRest(s.procs[2])
    && s.procs[3] == Edit(1, Some(100), true, false, Thinking)
    && s.tables.versions == map[100 := Version(10, Superseded, NO_PLAN), 101 := Version(11, Proposed, NO_PLAN)]
    && s.tables.projects.Keys == {10, 11}
    && ChatOf(s, 1) == Chat(Some(101), true, {100, 101})
  }

  lemma FirstDone(s: State, s1: State, s2: State)
    requires BothReading(s) && HasStashed(s, s1, 2, 11, 101)
    requires s2.tables == RetiredTables(s1.tables, Some(100), 101)
    requires 2 in s2.procs && AtRest(s2.procs[2]) && s2.procs == s1.procs[2 := s2.procs[2]]
    requires s2.chats == s1.chats[1 := Rearmed(ChatOf(s1, 1), 101)]
    ensures OneDone(s2)
  {
    hide RetiredTables;
    FirstTables(s, s1, s2);
    assert {100} + {101} == {100, 101} && {100, 101} + {101} == {100, 101};
  }

  lemma FirstTables(s: State, s1: State, s2: State)
    requires BothReading(s) && HasStashed(s, s1, 2, 11, 101)
    requires s2.tables == RetiredTables(s1.tables, Some(100), 101)
    ensures s2.tables.versions == map[100 := Version(10, Superseded, NO_PLAN), 101 := Version(11, Proposed, NO_PLAN)]
    ensures s2.tables.projects.Keys == {10, 11}
  {
  }

  lemma SecondDone(s2: State, s3: State, t: State)
    requires OneDone(s2) && HasStashed(s2, s3, 3, 12, 102)
    requires t.tables == RetiredTables(s3.tables, Some(100), 102)
    requires 3 in t.procs && AtRest(t.procs[3]) && t.procs == s3.procs[3 := t.procs[3]]
    requires t.chats == s3.chats[1 := Rearmed(ChatOf(s3, 1), 102)]
    ensures Quiescent(t) && IsStray(t, 1, 101)
    ensures ChatOf(t, 1).pending == Some(102) && t.tables.HasStatus(100, Superseded)
  {
  }
}
