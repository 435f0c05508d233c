# Planner scheduling and plan lifecycle

A Dafny model of the planner's scheduling core and of the life of its plans.

**The scheduler.** Tasks are sorted along their dependencies and placed one by one, each on the
earliest day that has room, by one of four allocators: on one day, spread over several days, as a
required pair, or as an external window. A capacity index keeps the hours used per person and day.
A task that finds no room within 365 days is dumped on its first possible working day. At the end
the index is scanned for overloads and the plan's end is held against the deadline. A separate
longest-path computation gives an end date that looks at no capacity at all.

**The life of a plan.** A plan version is proposed, and then either committed by a confirm or
superseded by an edit. Confirms and edits of many people, and several messages of one chat, run at
the same time and interleave between calls; one conditional update decides who wins a version.

**Between the two.** Proposals are stored as JSON. The payloads of committed plans are read back as
load for the next solve, and as tasks when everything is planned again. Projects are instantiated
from templates.

## How it is built

| module | content |
|---|---|
| Calendar, Models, Capacity, Graph, Weights | working days, records, the capacity index, the dependency graph and Kahn's algorithm, sums over ids |
| Allocators, Solver, CriticalPath | the scheduler, method by method, each proved against a function of the ledger of allocations |
| Shapes, Plans, Overloads, Dumps, Optimality | what holds of every placement and of every plan |
| Promises | what a plan promises in the terms of the request alone: who gets a task, on which days, what is flagged, in which words |
| LowerBound, Release, Room | from when on a plan can end at the earliest, and when a request has room for all its tasks |
| Store, Lifecycle, Handlers, Booking | the tables, concurrent confirms and edits, one handler alone, committed load over whole runs |
| Text, Codec, Replan, Template | stored payloads, reading them back, projects from templates |
| SingleTask, Examples, BoundExamples, Strays | concrete cases that mark the limits of the general results |

Code that works in place is modelled in place: `CapacityIndex` and `Repo` are classes, and the
allocators, the main loop, the longest-path loop and the readers are methods with loops. The
specification of the index is the plain list of all allocations ever recorded, its ledger. In the
concurrent model a step is one call of one process, on the repository or on the stored state of a
chat.

A plan is anything `IsPlan` allows: the schedule along some topological order, with the overload
flags in some order. The results about plans hold for all of them. Promises spells out what the
functions of the scheduler decide: holidays as members of a set and weekends as `d % 7`, a ceiling
as the hours of the last entry for its cell, those who may do a task as those allowed and on the
roster.

## Where the code does not do what one would expect

- **A dump wins the race.** A candidate who can never take a task is "placed" on the first working
  day, and the race takes that for the earliest start. `Optimality.DumpWinsRace` says exactly when
  this happens to a task that cannot be split, `Optimality.SplitDumpWinsRace` to one that can.
  `Examples.DumpBeatsRoom` is a plan that dumps a task on a half-day worker although the person with
  priority has room the next day; in `Examples.DumpBeatsTwoDays` a person without any capacity gets
  sixteen hours although the person with priority is wholly free. `Room.RoomNoOverload` gives a
  condition on the request under which nothing is dumped.
- **The critical path is no lower bound.** It counts start-to-start links like links that wait for
  the end, counts windows and done tasks by the hours of their people, and takes the least capacity
  for everybody's. `LowerBound.PlanNotBeforeCriticalPath` and `LowerBound.EvenTeamBound` state
  conditions under which it is one, `LowerBound.ShortTasksBound` and `Room.RoomBound` on the request
  alone; BoundExamples has for each condition a plan that ends too early where only that condition
  is missing. `Release.EveryPathBounds` is a bound for every request.
- **A confirm can double-book.** Confirming neither solves again nor looks at the flags.
  `Booking.NoDoubleBookingExactly` says exactly which runs keep everybody within capacity: those in
  which each version fits on top of what is committed at that moment. In
  `Examples.StaleConfirmDoubleBooks` it does not because another plan was committed in between, in
  `Examples.OverloadedConfirmOverbooks` because the plan is overloaded itself.
- **Overlapping edits leave proposals behind.** Messages of one chat are not serialised. Two edits
  that overlap replace the same old proposal, and one of the new ones stays proposed although the
  chat has forgotten it: `Strays.OverlapLeavesStray`. `Lifecycle.EditChain` excludes it where the
  inputs of the chat do not overlap; `Lifecycle.StillProposed` says for any run which proposals are
  left.
- **Planning again moves the second person's hours of a pair to the first.** `Replan.PairMovesHours`
  shows it for every plan that solving again can make; `Replan.ReplanKeepsTotals` says exactly whose
  totals are kept.

## Model

| member | source | states |
|---|---|---|
| Calendar.WeekendCalendar.FirstFrom | src/planner/domain/calendar/rules.py:40-44 | the least working day on or after a date; it exists for every finite holiday set, because each step of the search uses up a holiday or a weekend day |
| Calendar.WeekendCalendar.NextWorkingDay | src/planner/domain/calendar/rules.py:21-25 | the search loop terminates with the first day after the given one that is no holiday and has weekday one to five; every day it skips is a holiday or on a weekend |
| Calendar.WeekendCalendar.WorkingDayMeaning | src/planner/domain/calendar/rules.py:18-19 | a working day is a day from Monday to Friday, counted from a Monday, that is not among the holidays |
| Calendar.WeekendCalendar.FirstFromMeaning | src/planner/domain/calendar/rules.py:40-44 | the first working day is such a day, and every day skipped is a holiday or on a weekend |
| Calendar.WeekendCalendar.BusinessDaysBetween | src/planner/domain/calendar/rules.py:27-37 | the loop counts the working days of [a, b), zero where b is not after a |
| Calendar.WeekendCalendar.BusinessDaysIsCount | src/planner/domain/calendar/rules.py:27-37 | the count is the size of the set of days in [a, b) that are no holidays and not on a weekend |
| Calendar.WeekendCalendar.FirstWorkingDay | src/planner/domain/calendar/rules.py:40-44 | the shortcut for a working start and the search give the same first working day |
| Calendar.WeekendCalendar.NthWorkingDay | src/planner/domain/calendar/rules.py:47-57 | counts from one; a count below one is an error |
| Calendar.WeekendCalendar.BusinessDaysAdditive | src/planner/domain/calendar/rules.py:27-37 | counts of adjacent intervals add up |
| Calendar.WeekendCalendar.CountInjective | src/planner/domain/calendar/rules.py:27-37 | from a fixed start, working days are ordered exactly as their counts |
| Calendar.WeekendCalendar.NthInverse | src/planner/domain/calendar/rules.py:27-57 | the n-th working day is the only working day with n - 1 working days between the start and it |
| Calendar.WeekendCalendar.NthStrictlyMonotone | src/planner/domain/calendar/rules.py:47-57 | a larger count gives a later day, and only a larger one does |
| Calendar.WeekendCalendar.NthMonotoneInStart | src/planner/domain/calendar/rules.py:47-57 | a later start never gives an earlier n-th working day |
| Calendar.WeekendCalendar.NthCompose | src/planner/domain/calendar/rules.py:47-57 | the b-th working day from the a-th is the (a + b - 1)-th |
| Calendar.WeekendCalendar.AtLeastNth | src/planner/domain/calendar/rules.py:47-57 | a working day lies on or after the n-th exactly when at least n - 1 working days precede it |
| Capacity.CapacityIndex.constructor | src/planner/domain/solver/greedy.py:51-63 | a new index holds exactly the existing allocations |
| Capacity.BaseCapacityIsCeiling | src/planner/domain/solver/greedy.py:65-72 | the ceiling of a cell is the hours of its last override, zero ones too; without one it is zero on holidays, weekends and for strangers, and otherwise the capacity of the last person of that id |
| Capacity.CapacityIndex.Remaining | src/planner/domain/solver/greedy.py:74-75 | what the person can work on the day less the sum of all recorded hours: the last override for the cell, weekends included, or else nothing on a day off and the capacity of the last person of that id; the zero entry that reading inserts changes no sum |
| Capacity.CapacityIndex.Occupy | src/planner/domain/solver/greedy.py:77-79 | afterwards the index is the sum of the old ledger and the new allocations |
| Capacity.CapacityIndex.Overloads | src/planner/domain/solver/greedy.py:81-88 | reports only cells whose summed hours exceed that ceiling, all of those that have any hours, each once, with both numbers |
| Graph.BuildDag | src/planner/domain/solver/greedy.py:91-103 | the loops build the specified graph, whose meaning DagFaithful states |
| Graph.DagFaithful | src/planner/domain/solver/greedy.py:91-103 | the nodes are the tasks and the ends of dependencies, each once; between two nodes the last stated dependency is the edge |
| Graph.InDegrees | src/planner/domain/solver/greedy.py:270-272 | each node's number of incoming edges |
| Graph.ProcessHead | src/planner/domain/solver/greedy.py:270-272 | one turn keeps the counters, the queue of open nodes and the forward order |
| Graph.KahnOrder | src/planner/domain/solver/critical_path.py:50 | the lazy order: exactly the nodes that are on no cycle and behind none, each after its predecessors; complete exactly on acyclic graphs |
| Graph.TopologicalSort | src/planner/domain/solver/greedy.py:270-272 | every node once with all edges forward, or the graph has a cycle |
| Graph.StuckBehind | src/planner/domain/solver/greedy.py:270-272 | walking backwards from a node the loop did not get to closes a cycle |
| Graph.OrderedIsAcyclic | src/planner/domain/solver/greedy.py:270-272 | a graph with a topological order has no cycle, so the sort succeeds exactly on acyclic graphs |
| Allocators.FirstFitLeast | src/planner/domain/solver/greedy.py:150-154 | the search finds the least working day of the range on which everyone has the hours, and fails only when there is none |
| Allocators.AllocateSingle | src/planner/domain/solver/greedy.py:141-162 | the loop over the index gives the placement on the first day that fits, or the dump on the first working day |
| Allocators.AllocatePair | src/planner/domain/solver/greedy.py:224-258 | the same for two people on one day, each with the full hours |
| Allocators.FillDays | src/planner/domain/solver/greedy.py:174-186 | the loop takes, day after day, what is free or still wanted, and returns what is left over |
| Allocators.AllocateSplit | src/planner/domain/solver/greedy.py:165-191 | the remainder is dumped on the first working day, and the dates are the least and the greatest day of the chunks |
| Allocators.SpreadTotal | src/planner/domain/solver/greedy.py:174-189 | the hours spread and the hours left over are the hours wanted |
| Allocators.WindowSpan | src/planner/domain/solver/greedy.py:218 | the least number of eight-hour days that holds the hours, at least one |
| Allocators.AllocateWindow | src/planner/domain/solver/greedy.py:207-221 | no allocations; from the first working day to the last of the span |
| Allocators.Allocate | src/planner/domain/solver/greedy.py:194-204 | splittable tasks are spread, others placed on one day |
| Allocators.Race | src/planner/domain/solver/greedy.py:320-330 | the loop over the candidates keeps the choice whose optimality BestIsEarliest states, and changes no hours in the index |
| Solver.TaskByIdIsTask | src/planner/domain/solver/greedy.py:274 | looking up an id gives a task of that id, and fails only where there is none |
| Solver.TaskByIdIsLast | src/planner/domain/solver/greedy.py:274 | of several tasks with one id the last one counts |
| Solver.ComputeEarliestStart | src/planner/domain/solver/greedy.py:106-138 | the loop over the incoming edges gives the date that EarliestRespects and EarliestIsForced pin down |
| Solver.SchedulePrePlaced | src/planner/domain/solver/greedy.py:281-292 | done tasks with a fixed start and assignee are placed first and occupy their hours |
| Solver.ScheduleTask | src/planner/domain/solver/greedy.py:303-333 | one turn: everybody eligible, the allocator by kind of task, and the index grown by the new allocations; Promises.EveryoneRaces, PairFirstDay, FirstInPriority and WindowPromise say who gets it and when |
| Solver.ScheduleAll | src/planner/domain/solver/greedy.py:281-333 | the main loop places tasks in order, skipping the placed and the nodes that are no task; index and assignments stay in step |
| Solver.WorkingDaysRoundUp | src/planner/domain/units.py:13-23 | hours in a flag's message are rounded up to whole days of the cell's capacity |
| Solver.Plan | src/planner/domain/solver/greedy.py:267-345 | fails for lack of people exactly when there are tasks and no people, fails as unfeasible exactly when the graph has a cycle, and otherwise returns a plan |
| Shapes.TogetherShape | src/planner/domain/solver/greedy.py:150-162 | one working day not before the earliest, the full hours for each person |
| Shapes.SplitShape | src/planner/domain/solver/greedy.py:165-191 | one person's positive chunks on working days, in total the task's hours, with start and end their least and greatest day |
| Shapes.WindowShape | src/planner/domain/solver/greedy.py:207-221 | a window covers exactly its span of working days |
| Shapes.BestIsCandidate | src/planner/domain/solver/greedy.py:320-330 | the race returns the placement of one of the candidates |
| Shapes.PlaceTaskShape | src/planner/domain/solver/greedy.py:303-330 | whatever the allocator: working days, dates at the ends of the work, hours conserved, only eligible people |
| Shapes.PlaceTaskWorkers | src/planner/domain/solver/greedy.py:309-330 | the assignee works alone, a pair is worked by the first two eligible people |
| Plans.PlacedKeys | src/planner/domain/solver/greedy.py:294-299 | after the run exactly the fixed tasks and the tasks on the order are placed |
| Plans.Persistent | src/planner/domain/solver/greedy.py:294-333 | once placed, a task does not move |
| Plans.PredecessorsFirst | src/planner/domain/solver/greedy.py:294-302 | every real predecessor is placed when its successor is scheduled |
| Plans.Complete | src/planner/domain/solver/greedy.py:294-344 | a plan assigns exactly the requested tasks, each once; nodes that are no task do not appear |
| Plans.InDependencyOrder | src/planner/domain/solver/greedy.py:344-345 | a plan lists every predecessor before its successors |
| Plans.UniqueAssignment | src/planner/domain/solver/greedy.py:344-345 | a task has one assignment |
| Plans.AssignmentOrigin | src/planner/domain/solver/greedy.py:294-333 | an assignment is the choice made at the task's turn, given assignments that are still in the plan |
| Plans.EarliestRespects | src/planner/domain/solver/greedy.py:121-138 | no earlier than the horizon and than the date of any link from a placed predecessor |
| Plans.EarliestIsForced | src/planner/domain/solver/greedy.py:121-138 | the horizon's start, or the date that some link demands: nothing is held back without need |
| Plans.LinkDateMeaning | src/planner/domain/solver/greedy.py:127-136 | a day satisfies a link exactly when lag - 1 working days, and at least none, lie between the end (FS) or the start (SS) of the predecessor and it |
| Plans.Precedence | src/planner/domain/solver/greedy.py:106-138 | in every plan every link into a task that is not fixed holds with its lag, also for dumped tasks and past the horizon |
| Plans.HoursConserved | src/planner/domain/solver/greedy.py:141-333 | a task that is not fixed is worked for exactly its hours by its assignee alone, by the first two eligible people for the full hours each if it is a pair, by nobody if it is a window, on working days within its dates |
| Plans.FixedTasksStay | src/planner/domain/solver/greedy.py:281-292 | a done task keeps its dates, its assignee and its hours |
| Overloads.RunLedger | src/planner/domain/solver/greedy.py:287-333 | along the run the index holds the existing hours plus those of everything placed |
| Overloads.IndexIsSum | src/planner/domain/solver/greedy.py:332-344 | at the end every cell holds the existing hours plus the hours of the returned plan |
| Overloads.FlagsExact | src/planner/domain/solver/greedy.py:357-371 | a cell is flagged exactly when existing and planned hours together exceed its capacity; open only for a cell of negative capacity without hours |
| Overloads.FlaggedOnce | src/planner/domain/solver/greedy.py:357-371 | no cell is flagged twice |
| Dumps.PlaceTaskFits | src/planner/domain/solver/greedy.py:150-258 | hours that are not dumped never lift a cell above its capacity |
| Dumps.UseBound | src/planner/domain/solver/greedy.py:294-333 | a cell exceeds its capacity, or its initial load where that was more, by no more than the hours dumped on it |
| Dumps.OverloadAttribution | src/planner/domain/solver/greedy.py:335-371 | a flagged cell was over capacity from the start or received a dump |
| Dumps.NoDumpNoOverload | src/planner/domain/solver/greedy.py:335-371 | where the initial load fits and nothing is dumped, the plan has no overload |
| Dumps.LeftoverIsShortage | src/planner/domain/solver/greedy.py:174-188 | what a split task dumps is exactly what the horizon cannot supply |
| Dumps.DumpedExactly | src/planner/domain/solver/greedy.py:150-188 | a single or paired task is dumped exactly when no day of the horizon has everyone free, a split one exactly when the supply falls short |
| Promises.EligibleMeaning | src/planner/domain/solver/greedy.py:303-307 | the eligible people are those allowed who are on the team, everybody where there is none, all of them and in the order of their list |
| Promises.EveryoneRaces | src/planner/domain/solver/greedy.py:319-333 | in every plan, a task that is neither done nor a window nor a pair is worked as its person would work it, nobody who may do it would be done sooner, and everybody who precedes its person would be strictly later |
| Promises.NobodyHadRoom | src/planner/domain/solver/greedy.py:141-162 | in every plan, on no day between its earliest date and its start had anybody who may do an unsplittable task the hours free |
| Promises.PairMeaning | src/planner/domain/solver/greedy.py:313-318 | a task is a pair exactly when it must be one and two of its people are on the team; the two are the first in priority |
| Promises.PairFirstDay | src/planner/domain/solver/greedy.py:224-258 | in every plan, a pair takes the first day on which both have the hours free, where the horizon has such a day |
| Promises.FirstInPriority | src/planner/domain/solver/greedy.py:309-318 | windows and pairs are in the name of the first in priority who is on the team |
| Promises.WithoutRoom | src/planner/domain/solver/greedy.py:150-162 | in every plan, a task done on one day for which the 365 days have no room goes to the first open day it may start on |
| Promises.WindowPromise | src/planner/domain/solver/greedy.py:207-221 | in every plan, a window starts on the first open day it may, spans the least number of open days of eight hours that holds its hours, at least one, and nobody works on it |
| Promises.FlaggedAboveCeiling | src/planner/domain/solver/greedy.py:65-88 | in every plan, a cell is flagged exactly when existing and planned hours exceed its last override, or else the last stated capacity of the person, zero on days off; open only for a negative ceiling without hours |
| Promises.NothingOnClosedDay | src/planner/domain/solver/greedy.py:141-258 | on a day whose ceiling is zero or less, such as a day of vacation, a plan has no hours but those there before and those dumped |
| Promises.OnOpenDays | src/planner/domain/solver/greedy.py:141-258 | no date and no hour of a task that is not done lies on a holiday or a weekend |
| Promises.DependencyHolds | src/planner/domain/solver/greedy.py:91-138 | in every plan, the last dependency stated between two tasks holds, with its kind and with lag - 1 open days in between |
| Promises.DoneTasksStay | src/planner/domain/solver/greedy.py:281-292 | a done task keeps its dates, the start for an end it lacks, its assignee, and all its hours on its first day |
| Promises.EndIsLatest | src/planner/domain/solver/greedy.py:336 | a plan ends with the latest end of a task, and has no end exactly when it has no tasks |
| Promises.RisksWorded | src/planner/domain/solver/greedy.py:335-371 | the risks are the overloads, each worded with the rounded working days and its date, and last the missed deadline, which is there exactly when the plan ends after it |
| Optimality.SplitOptimal | src/planner/domain/solver/greedy.py:165-191 | no distribution of the hours within what is free delivers all of them before the end date, and before the start nothing is free |
| Optimality.SplitDelivers | src/planner/domain/solver/greedy.py:165-191 | the schedule itself is such a distribution and delivers all hours by the end date |
| Optimality.TogetherEarliest | src/planner/domain/solver/greedy.py:150-161 | if any day of the horizon fits, the first such day is taken and nothing is dumped |
| Optimality.BestIsEarliest | src/planner/domain/solver/greedy.py:320-330 | the choice has the lexicographically least start and end over all candidates, the first in priority among equals |
| Optimality.RaceLeavesNoGap | src/planner/domain/solver/greedy.py:320-330 | before the chosen day no candidate had room for the task |
| Optimality.DumpWinsRace | src/planner/domain/solver/greedy.py:155-161 | an unsplittable task is dumped exactly when some candidate never has room and nobody of higher priority is free on the first day |
| Optimality.DumpedSplitDates | src/planner/domain/solver/greedy.py:185-191 | a dumped split runs from the first working day to the last day with anything free |
| Optimality.SplitDumpWinsRace | src/planner/domain/solver/greedy.py:185-191 | a split task is dumped exactly when some candidate cannot be supplied and everyone who can starts after the first day or is not done sooner |
| Optimality.LoadMonotone | src/planner/domain/solver/greedy.py:303-330 | under a pointwise heavier load no task is placed earlier, unless it is dumped there |
| CriticalPath.DayNormIsLeast | src/planner/domain/solver/critical_path.py:25-30 | the day norm is the least capacity among the allowed people on the team, eight without any, and at least one |
| CriticalPath.DurationIsCeiling | src/planner/domain/solver/critical_path.py:31 | the least number of such days that holds the hours, at least one |
| CriticalPath.FinishIsLongest | src/planner/domain/solver/critical_path.py:47-56 | along any topological order each node's finish is the weight of the heaviest dependency path into it |
| CriticalPath.FillFinish | src/planner/domain/solver/critical_path.py:47-54 | the loop fills these finishes and keeps their maximum; it fails on a node that is no task |
| CriticalPath.LongestChain | src/planner/domain/solver/critical_path.py:47-54 | the maximum is at least the weight of every path, and some path attains it; otherwise an unknown task met before any cycle, or a cycle |
| CriticalPath.LongestUnique | src/planner/domain/solver/critical_path.py:47-54 | it does not depend on the order |
| CriticalPath.CriticalPathEnd | src/planner/domain/solver/critical_path.py:34-58 | the working day on which the longest path ends; fails on an unknown task that is behind no cycle, and on a cycle where there is none |
| CriticalPath.PresentedEarliestEnd | src/planner/domain/solver/critical_path.py:61-72 | the n-th working day for the longest path, at least one day, plus two working days, written out |
| LowerBound.PlanNotBeforeCriticalPath | src/planner/domain/solver/critical_path.py:34-58 | with FS links, nothing fixed, windows and people within the norms, no plan that keeps within the norms ends before the critical path |
| LowerBound.ChainFillsDays | src/planner/domain/solver/greedy.py:294-343 | the tasks of a dependency path take at least its weight in working days |
| LowerBound.UnflaggedWithinNorms | src/planner/domain/solver/greedy.py:335-343 | a plan without overload flags keeps within every day norm |
| LowerBound.CleanRunWithinNorms | src/planner/domain/solver/greedy.py:294-333 | so does one whose one-day tasks fit a day and whose splits of more than a day are not dumped |
| LowerBound.DeadlineFlagExact | src/planner/domain/solver/greedy.py:336-343 | the deadline flag is raised exactly when some task ends after the deadline |
| LowerBound.LateCriticalPathMissesDeadline | src/planner/domain/solver/greedy.py:336-343 | when the critical path ends after the deadline, every plan without overloads reports it missed |
| LowerBound.EvenTeamBound | src/planner/domain/solver/critical_path.py:24-58 | with FS links and one common capacity for everyone allowed on a task, the bound holds and a deadline before it is always reported missed, overloads or not |
| LowerBound.ShortTasksBound | src/planner/domain/solver/critical_path.py:24-58 | on such a team, where no task takes longer than a day, the request alone decides |
| Room.TurnFits | src/planner/domain/solver/greedy.py:141-258 | with everything behind a frontier, a task with full days beyond it fits, and is done a known number of working days later |
| Room.RunFits | src/planner/domain/solver/greedy.py:294-333 | along any topological order nothing is dumped, where the horizon has the working days all turns need |
| Room.RoomNoOverload | src/planner/domain/solver/greedy.py:335-371 | a request with that room has no overload, unless its initial load has |
| Room.RoomBound | src/planner/domain/solver/critical_path.py:24-58 | and on an even team its plans do not end before the critical path, and report every deadline before it missed |
| Release.PathBound | src/planner/domain/solver/greedy.py:106-138 | no task starts or ends before the links along any path into it allow, with their lags and kinds and least durations |
| Release.EveryPathBounds | src/planner/domain/solver/greedy.py:335-343 | for every request with distinct task ids: no plan ends before any of its paths allows, and a deadline before that is always reported missed |
| Release.NormPathBounds | src/planner/domain/solver/greedy.py:335-343 | the same with full durations, where the plan keeps within the day norms |
| Release.CoversCriticalPath | src/planner/domain/solver/critical_path.py:47-58 | with FS links this bound is at least the critical path's |
| Store.Repo.Transition | src/planner/infra/db/repo.py:126-144 | moves the version only from the expected status, says whether it did, and changes nothing else |
| Store.Repo.ResetAllPlans | src/planner/infra/db/repo.py:520-545 | supersedes exactly the committed versions and cancels exactly their projects |
| Lifecycle.EventPreserves | src/planner/app/confirm_plan.py:52-83 | every call of every process keeps the invariant on rows, processes, winners, project statuses, audits, chats and tried versions |
| Lifecycle.Reachable | src/planner/app/confirm_plan.py:52-83 | the invariant holds after every interleaving of any number of confirms and edits |
| Lifecycle.StatusMovesOnce | src/planner/infra/db/repo.py:126-144 | over any run a version's status changes at most once, from proposed to committed or to superseded |
| Lifecycle.OneWinner | src/planner/app/confirm_plan.py:61-74 | each version is won by at most one process and has at most one confirm audit, and only when committed |
| Lifecycle.AgreementAtRest | src/planner/app/confirm_plan.py:52-83 | when all processes have finished, a project is planning, committed or cancelled exactly as its version is proposed, committed or superseded, and exactly the committed versions are audited |
| Lifecycle.StillProposed | src/planner/bot/handlers/task_router.py:743-765 | when all have finished, a version is still proposed exactly when nobody tried to confirm it and no edit took it for the one its proposal replaces |
| Lifecycle.EditChain | src/planner/bot/handlers/task_router.py:743-765 | where the inputs of a chat do not overlap, every version it has had pending since its edit began is no longer proposed, except the pending one, whatever others do |
| Lifecycle.StrayExactly | src/planner/bot/handlers/task_router.py:743-765 | in any run the chain keeps a stray proposal exactly when it holds a version, not pending, that was neither tried nor replaced |
| Strays.OverlapLeavesStray | src/planner/bot/handlers/task_router.py:743-765 | a run in which two overlapping edits of one chat leave a proposal behind |
| Lifecycle.CommittedNeverCancelled | src/planner/bot/handlers/task_router.py:756-763 | once a version is committed, nothing that follows cancels its project |
| Handlers.ConfirmPlan | src/planner/app/confirm_plan.py:52-83 | commits, audits and marks the project exactly when the version was proposed; otherwise changes nothing and names the reason |
| Handlers.RetireReplaced | src/planner/bot/handlers/task_router.py:756-763 | supersedes the replaced proposal and cancels its project, unless it is no longer proposed or is the new one |
| Handlers.ConfirmAlone | src/planner/app/confirm_plan.py:52-83 | the concurrent confirm process, undisturbed, does in four calls what the handler does |
| Handlers.EditAlone | src/planner/bot/handlers/task_router.py:756-765 | the concurrent edit process, undisturbed, retires the old proposal as the handler does and arms the loop with the new one |
| Handlers.TypeOkAlone | src/planner/bot/handlers/task_router.py:500-519 | a typed confirmation, undisturbed, confirms what the chat has pending as the handler does, and clears the chat in any case |
| Handlers.EditReplaces | src/planner/bot/handlers/task_router.py:717-765 | pressing edit and sending one message that makes a proposal, undisturbed, retires the pressed version and leaves the new one pending, with the loop armed |
| Booking.LoadIsSum | src/planner/bot/handlers/task_router.py:108-110 | the gathered load is the sum over the committed plans, in whatever order they are listed |
| Booking.SolvedPlanFits | src/planner/bot/handlers/task_router.py:108-122 | a plan without overloads fits together with the committed plans it was solved against |
| Booking.CommitKeeps | src/planner/infra/db/repo.py:126-144 | a commit leaves the committed load within capacity exactly when the version fits on top of it |
| Booking.NoDoubleBookingExactly | src/planner/bot/handlers/task_router.py:108-122 | over any run of proposing, confirming, superseding and resetting, the committed hours of no person on no day ever exceed the capacity exactly when every version fits at the moment it is committed |
| Booking.FitsNowIsEmptyScan | src/planner/domain/solver/greedy.py:81-88 | a version fits exactly when the overload scan over the current load and its own hours is empty |
| Booking.NoDoubleBookingWhenClear | src/planner/bot/handlers/task_router.py:108-122 | it does where each confirmed plan reports no overload and shares no day with plans committed since it was solved |
| Booking.NoDoubleBooking | src/planner/bot/handlers/task_router.py:108-122 | in particular where no plan was committed since |
| Booking.ResetClearsLoad | src/planner/infra/db/repo.py:520-545 | after a reset nobody has any committed load |
| Text.UuidRoundTrip | src/planner/app/add_project.py:124-125 | the hyphenated form of RFC 9562 section 4 reads back as the same 128-bit id and is never empty |
| Text.UuidForm | src/planner/app/add_project.py:124-125 | an id is written in 36 characters, lower-case hexadecimal digits with dashes after eight and three times after four more |
| Text.DateRoundTrip | src/planner/app/add_project.py:126-127 | the form of ISO 8601-1:2019 section 5.2.2 reads back as the same day, for the years 1 to 9999 |
| Text.MonthLengths | src/planner/app/add_project.py:126-127 | the leap years and the lengths of the months of the Gregorian calendar |
| Text.OrdinalsCount | src/planner/app/add_project.py:126-127 | the day after a calendar date has the next ordinal, over the ends of months and years |
| Text.FirstOrdinal | src/planner/app/add_project.py:126-127 | the first of January of the year 1 has ordinal 1 |
| Text.DateForm | src/planner/app/add_project.py:126-127 | a day is written as its year in four digits, its month and its day in two, with dashes |
| Text.LeapDayText | src/planner/app/add_project.py:126-127 | the day 738945 is written 2024-02-29 |
| Text.DecimalForm | src/planner/domain/solver/greedy.py:366 | a number is written without leading zeros, and reads back |
| Codec.PlanRoundTrip | src/planner/app/add_project.py:119-207 | reading a stored plan gives the plan back, with all assignments, risks and absent values |
| Codec.DeserializeAllocations | src/planner/app/add_project.py:161-173 | the nested loops read all allocations in order, or fail on the first that cannot be read |
| Codec.AllocationsFlattenPlan | src/planner/app/add_project.py:161-207 | for every payload that reads as a plan, reading its allocations alone gives that plan's allocations |
| Replan.GatherLoad | src/planner/bot/handlers/task_router.py:108-110 | the loop collects the allocations of all payloads |
| Replan.GatheredIsLoad | src/planner/bot/handlers/task_router.py:108-110 | from stored payloads the load comes back as that of the plans that were stored |
| Replan.ReconstructRequest | src/planner/bot/handlers/replan.py:27-72 | the people, the current overrides and today as given, no load, no deadline, the tasks of all rows that work hours, and of the dependencies exactly those with both ends among these tasks, in their order; nothing to plan without people or tasks |
| Replan.WorkMeaning | src/planner/bot/handlers/replan.py:41-57 | of the stored assignments exactly those that work hours become tasks, in their order, each with its id, name, total hours and assignee and nothing else set |
| Replan.TasksReadBack | src/planner/bot/handlers/replan.py:41-57 | from stored plans come the tasks of their assignments, with all their hours, bound to the assignee |
| Replan.SolvedTotals | src/planner/bot/handlers/replan.py:49-72 | solving such tasks gives every person exactly the hours bound to them |
| Replan.ReplanTotals | src/planner/bot/handlers/replan.py:39-72 | planning again gives every person the hours of the assignments in their name, if all are still on the team |
| Replan.ReplanKeepsTotals | src/planner/bot/handlers/replan.py:39-72 | planning again adds what others work for a person and takes what they work for others; the total is kept exactly when the two are equal in the stored plans |
| Replan.UnpairedOwnWork | src/planner/domain/solver/greedy.py:281-333 | in a plan solved without required pairs everyone works their own assignments |
| Replan.UnpairedTotalsKept | src/planner/bot/handlers/replan.py:39-72 | planning such plans again keeps everybody's total |
| Replan.PairMovesHours | src/planner/bot/handlers/replan.py:44-56 | whatever plan comes of a stored pair, the first person works both shares and the second nothing |
| Template.Instantiate | src/planner/app/add_project.py:80-116 | fails exactly when an ord does not resolve, and otherwise gives the tasks and dependencies of all specs |
| Template.SpecTasksMeaning | src/planner/app/add_project.py:89-102 | every task keeps the name, hours, people and kind of its spec, belongs to the project, and is not done |
| Template.OrdIdsMeaning | src/planner/app/add_project.py:88 | an ord has the id drawn for the last spec of that ord |
| Template.EntryBecomesEdge | src/planner/app/add_project.py:103-115 | every entry becomes an edge between the images of its ords with its link and lag, FS and none where the lists are short; of entries for one ord the last counts |
| Template.LinksCorrespond | src/planner/app/add_project.py:80-116 | ords are linked exactly when their tasks are |
| Template.NodesCorrespond | src/planner/app/add_project.py:80-116 | the project's nodes are exactly the images of the ords, and all are tasks |
| Template.OrdIdsInjective | src/planner/app/add_project.py:88 | distinct ords get distinct ids, all of them fresh |
| Template.CyclesCorrespond | src/planner/app/add_project.py:80-116 | the project's graph has a cycle exactly when the template's ords have one |
| Template.AddProject | src/planner/app/add_project.py:215-280 | a project is made exactly when title, deadline, template and team allow it and the ords have no cycle, and else the first failing check is named; a rejection writes nothing, a success writes the project, its proposed plan and the audit; without a deadline the date shown is the working day on which the longest path ends, at least one day, plus two |
| Examples.DumpBeatsRoom | src/planner/domain/solver/greedy.py:155-161 | a plan that dumps a task, and flags it, although the person with priority has room the next day |
| Examples.DumpBeatsTwoDays | src/planner/domain/solver/greedy.py:185-191 | a plan that gives a split task to a person without capacity although the person with priority is free |
| BoundExamples.LinksMatter | src/planner/domain/solver/critical_path.py:44-56 | a plan that ends before the critical path where only a start-to-start link is in the way |
| BoundExamples.UnfixedMatters | src/planner/domain/solver/greedy.py:281-292 | the same with a done task |
| BoundExamples.WindowsMatter | src/planner/domain/solver/critical_path.py:24-31 | the same with a window and a norm of four hours |
| BoundExamples.CapacitiesMatter | src/planner/domain/solver/critical_path.py:24-31 | the same with people of unequal capacity |
| BoundExamples.OverridesMatter | src/planner/domain/solver/critical_path.py:24-31 | the same with an override above the norm |
| BoundExamples.OneDayMatters | src/planner/domain/solver/greedy.py:155-161 | the same with an unsplittable task longer than a day |
| BoundExamples.LongSplitsMatter | src/planner/domain/solver/greedy.py:185-191 | the same with a long split task that is dumped |
| Examples.StaleConfirmDoubleBooks | src/planner/app/confirm_plan.py:52-83 | a run: two plans without overload solved against the same state, both confirmed, sixteen hours on an eight-hour day |
| Examples.OverloadedConfirmOverbooks | src/planner/app/confirm_plan.py:52-83 | a run: one overloaded plan, confirmed at once |

## Left out

Contracts that say less than they could, or ask for something:

- Capacity.CapacityIndex.Overloads: leaves the order of the report open, which in the source is the order in which cells were first touched, and whether a cell of negative capacity without hours is listed, which there depends on whether it was looked at.
- Graph.TopologicalSort: one of possibly many topological orders; networkx, which chooses it, is not part of this model, and every result about plans holds for all orders.
- Graph.KahnOrder: the order in which networkx yields nodes before it meets a cycle is left open; which nodes it yields is not.
- LowerBound.PlanNotBeforeCriticalPath: that the plan keeps within the day norms is a condition on its run; UnflaggedWithinNorms, CleanRunWithinNorms, ShortTasksBound and Room.RoomBound derive it.
- Room.RoomNoOverload: the room asked for is more than the scheduler needs, since every turn is counted as if it came after all others.
- Release.EveryPathBounds: counts one day for anything but a window, because a dump puts any number of hours on one day; NormPathBounds counts the full durations.
- Optimality.LoadMonotone: does not apply where the heavier load has no room left, since a dump goes to the first working day, which may be earlier.
- Booking.NoDoubleBookingExactly: no capacity is negative; the roster and the calendar are fixed and proposals are solved without day overrides, as the handler does.
- Lifecycle.EditChain: inputs of the chat do not overlap; the source does not prevent it, and StillProposed and StrayExactly hold without the condition.
- Handlers.ConfirmPlan: the missing row on the second reading is an absent status instead of the text "missing".
- Template.AddProject: the title is given without its surrounding blanks, and splittable specs have hours.
- Template.EntryBecomesEdge: ords are distinct; of two specs with one ord the later one's entries may override the earlier one's. The correspondence of links, nodes and cycles does not need it.
- Codec.PlanRoundTrip: reads only the year-month-day form of dates and the plain and hyphenated forms of ids, which are all that writing produces.
- Replan.ReplanTotals: the tasks read back are distinct, and the dependencies among them are given.
- Solver.Plan: splittable tasks have at least one hour; the source takes the least of an empty list otherwise. Dates in the solver have no last year.
- Overloads.IndexIsSum: task ids are distinct; of two tasks with one id the source keeps the last but occupies the hours of both where both are fixed.

What is not modelled:

- Telegram transport, voice, the language model, intent parsing, permissions, and every text except the flags' messages.
- The Notion mirror of tasks and projects, which never blocks a confirm or a creation.
- Task rows and their dependencies in the database, with the schedule columns written beside the plan version.
- Fresh identifiers and the clock: ids that are drawn are parameters that have not been used, today is a parameter.
- Crashes between two repository calls, and database errors.
- Manual overrides that skip the checks: reassigning within a committed plan, moving its schedule, and setting a version's status outright.
- Resetting all plans while confirms and edits run; it appears in the runs of committed load only.
- Messages that make several proposals at once: each message of the model makes at most one.
- Plan comparison, the capability view, the admin board, heatmaps, free slots, task capture, history and throttling: they read or format what is modelled here.
- Web routes, authentication, seeds, migrations and scheduled jobs.
