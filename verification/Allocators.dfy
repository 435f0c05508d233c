/** The four ways to place a task (`_allocate_single`, `_allocate_split`, `_allocate_pair` and
    `_allocate_window` in src/planner/domain/solver/greedy.py).

    The functions say where a task goes, given the ledger; the methods search as the source
    does, over the capacity index, and return the same placement. */
module Allocators {
  import opened Wrappers
  import opened Calendar
  import opened Models
  import opened Capacity

  const DAY_HOURS := 8

  /** Where a task goes: the hours that were fitted into free capacity, the hours dumped on the
      first working day because the horizon had no room, and the dates. */
  datatype Placement = Placement(
    fitted: seq<DayAllocation>,
    dumped: seq<DayAllocation>,
    start: Date,
    end: Date)
  {
    function Allocations(): seq<DayAllocation> {
      fitted + dumped
    }

    predicate Earlier(other: Placement) {
      start < other.start || (start == other.start && end < other.end)
    }
  }

  // Placement on one day ------------------------------------------------------

  /** Every one of `people` has `hours` left on a working day. */
  predicate AllFree(team: Team, ledger: seq<DayAllocation>, people: seq<Id>, hours: int, day: Date) {
    team.calendar.IsWorkingDay(day) && forall p :: p in people ==> hours <= team.Remaining(ledger, p, day)
  }

  function FirstFit(team: Team, ledger: seq<DayAllocation>, people: seq<Id>, hours: int,
                    day: Date, limit: Date): Option<Date>
    decreases limit - day
  {
    if limit < day then None
    else if AllFree(team, ledger, people, hours, day) then Some(day)
    else FirstFit(team, ledger, people, hours, day + 1, limit)
  }

  /** The first fit is the earliest day of the range on which everyone is free. */
  lemma {:induction false} FirstFitLeast(team: Team, ledger: seq<DayAllocation>, people: seq<Id>, hours: int,
                                         day: Date, limit: Date, d: Date)
    ensures FirstFit(team, ledger, people, hours, day, limit) == Some(d) <==>
              && day <= d <= limit && AllFree(team, ledger, people, hours, d)
              && forall e :: day <= e < d ==> !AllFree(team, ledger, people, hours, e)
    ensures FirstFit(team, ledger, people, hours, day, limit) == None <==>
              forall e :: day <= e <= limit ==> !AllFree(team, ledger, people, hours, e)
    decreases limit - day
  {
    if day <= limit && !AllFree(team, ledger, people, hours, day) {
      FirstFitLeast(team, ledger, people, hours, day + 1, limit, d);
    }
  }

  function OnDay(people: seq<Id>, day: Date, hours: int): seq<DayAllocation> {
    seq(|people|, i requires 0 <= i < |people| => DayAllocation(people[i], day, hours))
  }

  /** All of `people` work the full hours on one and the same day. */
  function PlaceTogether(team: Team, ledger: seq<DayAllocation>, people: seq<Id>, hours: int,
                         earliest: Date, limit: Date): Placement
  {
    var first := team.calendar.FirstFrom(earliest);
    match FirstFit(team, ledger, people, hours, first, limit)
    case Some(day) => Placement(OnDay(people, day, hours), [], day, day)
    case None => Placement([], OnDay(people, first, hours), first, first)
  }

  method AllocateSingle(task: Task, person: Id, earliest: Date, idx: CapacityIndex, limit: Date)
    returns (allocs: seq<DayAllocation>, start: Date, end: Date)
    requires idx.Valid()
    modifies idx`used
    ensures idx.Valid()
    ensures var p := PlaceTogether(idx.team, idx.ledger, [person], task.durationHours, earliest, limit);
            allocs == p.Allocations() && start == p.start && end == p.end
  {
    var first := idx.team.calendar.FirstWorkingDay(earliest);
    var day := first;
    var placed: Option<Date> := None;
    while day <= limit && placed.None?
      invariant idx.Valid()
      invariant FirstFit(idx.team, idx.ledger, [person], task.durationHours, first, limit) ==
        if placed.Some? then placed
        else FirstFit(idx.team, idx.ledger, [person], task.durationHours, day, limit)
      decreases limit - day, placed.None?
    {
      var fits := idx.team.calendar.IsWorkingDay(day);
      if fits {
        var left := idx.Remaining(person, day);
        fits := task.durationHours <= left;
      }
      if fits {
        placed := Some(day);
      } else {
        day := day + 1;
      }
    }
    start := if placed.Some? then placed.value else first;
    end := start;
    allocs := [DayAllocation(person, start, task.durationHours)];
  }

  method AllocatePair(task: Task, p1: Id, p2: Id, earliest: Date, idx: CapacityIndex, limit: Date)
    returns (allocs: seq<DayAllocation>, start: Date, end: Date)
    requires idx.Valid()
    modifies idx`used
    ensures idx.Valid()
    ensures var p := PlaceTogether(idx.team, idx.ledger, [p1, p2], task.durationHours, earliest, limit);
            allocs == p.Allocations() && start == p.start && end == p.end
  {
    var first := idx.team.calendar.FirstWorkingDay(earliest);
    var day := first;
    var placed: Option<Date> := None;
    while day <= limit && placed.None?
      invariant idx.Valid()
      invariant FirstFit(idx.team, idx.ledger, [p1, p2], task.durationHours, first, limit) ==
        if placed.Some? then placed
        else FirstFit(idx.team, idx.ledger, [p1, p2], task.durationHours, day, limit)
      decreases limit - day, placed.None?
    {
      var fits := idx.team.calendar.IsWorkingDay(day);
      if fits {
        var left := idx.Remaining(p1, day);
        fits := task.durationHours <= left;
      }
      if fits {
        var left := idx.Remaining(p2, day);
        fits := task.durationHours <= left;
      }
      if fits {
        placed := Some(day);
      } else {
        day := day + 1;
      }
    }
    start := if placed.Some? then placed.value else first;
    end := start;
    allocs := [DayAllocation(p1, start, task.durationHours), DayAllocation(p2, start, task.durationHours)];
  }

  // Spreading over days -------------------------------------------------------

  function TotalHours(allocs: seq<DayAllocation>): int {
    if allocs == [] then 0
    else TotalHours(allocs[..|allocs| - 1]) + allocs[|allocs| - 1].hours
  }

  lemma {:induction false} TotalHoursConcat(x: seq<DayAllocation>, y: seq<DayAllocation>)
    ensures TotalHours(x + y) == TotalHours(x) + TotalHours(y)
  {
    if y == [] {
      assert x + y == x;
    } else {
      assert (x + y)[..|x + y| - 1] == x + y[..|y| - 1];
      TotalHoursConcat(x, y[..|y| - 1]);
    }
  }

  /** What a day can give to a person who still wants `want` hours. */
  function Take(team: Team, ledger: seq<DayAllocation>, person: Id, want: int, day: Date): (take: int)
    requires 0 < want
    ensures 0 <= take <= want
  {
    var free := team.Remaining(ledger, person, day);
    if !team.calendar.IsWorkingDay(day) || free <= 0 then 0
    else if free < want then free
    else want
  }

  /** Fills every working day from `day` to `limit` until `want` hours are placed. */
  function Spread(team: Team, ledger: seq<DayAllocation>, person: Id, want: int,
                  day: Date, limit: Date): seq<DayAllocation>
    decreases limit - day
  {
    if want <= 0 || limit < day then []
    else
      var take := Take(team, ledger, person, want, day);
      var rest := Spread(team, ledger, person, want - take, day + 1, limit);
      if 0 < take then [DayAllocation(person, day, take)] + rest else rest
  }

  /** The hours the horizon has no room for. */
  function Leftover(team: Team, ledger: seq<DayAllocation>, person: Id, want: int,
                    day: Date, limit: Date): (left: int)
    ensures Spread(team, ledger, person, want, day, limit) == [] ==> left == want
    decreases limit - day
  {
    if want <= 0 || limit < day then want
    else
      Leftover(team, ledger, person, want - Take(team, ledger, person, want, day), day + 1, limit)
  }

  /** What is spread and what is left over are the hours that were wanted. */
  lemma {:induction false} SpreadTotal(team: Team, ledger: seq<DayAllocation>, person: Id, want: int,
                                       day: Date, limit: Date)
    requires 0 <= want
    ensures var left := Leftover(team, ledger, person, want, day, limit);
            && 0 <= left
            && TotalHours(Spread(team, ledger, person, want, day, limit)) == want - left
    decreases limit - day
  {
    if 0 < want && day <= limit {
      var take := Take(team, ledger, person, want, day);
      SpreadTotal(team, ledger, person, want - take, day + 1, limit);
      TotalHoursConcat([DayAllocation(person, day, take)],
                       Spread(team, ledger, person, want - take, day + 1, limit));
    }
  }

  function MinDay(allocs: seq<DayAllocation>): (d: Date)
    requires allocs != []
    ensures exists a :: a in allocs && a.day == d
    ensures forall a :: a in allocs ==> d <= a.day
  {
    if |allocs| == 1 then allocs[0].day
    else
      var d := MinDay(allocs[1..]);
      if allocs[0].day < d then allocs[0].day else d
  }

  function MaxDay(allocs: seq<DayAllocation>): (d: Date)
    requires allocs != []
    ensures exists a :: a in allocs && a.day == d
    ensures forall a :: a in allocs ==> a.day <= d
  {
    if |allocs| == 1 then allocs[0].day
    else
      var d := MaxDay(allocs[1..]);
      if d < allocs[0].day then allocs[0].day else d
  }

  function PlaceSplit(team: Team, ledger: seq<DayAllocation>, person: Id, hours: int,
                      earliest: Date, limit: Date): Placement
    requires 1 <= hours
  {
    var first := team.calendar.FirstFrom(earliest);
    var fitted := Spread(team, ledger, person, hours, first, limit);
    var left := Leftover(team, ledger, person, hours, first, limit);
    var dumped := if 0 < left then [DayAllocation(person, first, left)] else [];
    assert fitted + dumped != [];
    Placement(fitted, dumped, MinDay(fitted + dumped), MaxDay(fitted + dumped))
  }

  /** The search loop of a splittable task: fills day after day and says what is left over. */
  method FillDays(hours: int, person: Id, first: Date, idx: CapacityIndex, limit: Date)
    returns (allocs: seq<DayAllocation>, remaining: int)
    requires idx.Valid() && 1 <= hours
    modifies idx`used
    ensures idx.Valid()
    ensures allocs == Spread(idx.team, idx.ledger, person, hours, first, limit)
    ensures remaining == Leftover(idx.team, idx.ledger, person, hours, first, limit)
  {
    remaining := hours;
    allocs := [];
    var day := first;
    ghost var team, ledger := idx.team, idx.ledger;
    ghost var rest := Spread(team, ledger, person, hours, first, limit);
    while 0 < remaining && day <= limit
      invariant idx.Valid() && 0 <= remaining
      invariant rest == Spread(team, ledger, person, remaining, day, limit)
      invariant allocs + rest == Spread(team, ledger, person, hours, first, limit)
      invariant Leftover(team, ledger, person, remaining, day, limit)
                == Leftover(team, ledger, person, hours, first, limit)
      decreases limit - day
    {
      if idx.team.calendar.IsWorkingDay(day) {
        var cap := idx.Remaining(person, day);
        if 0 < cap {
          var take := if cap < remaining then cap else remaining;
          assert rest[0] == DayAllocation(person, day, take);
          assert allocs + rest == (allocs + [rest[0]]) + rest[1..];
          rest := rest[1..];
          allocs := allocs + [DayAllocation(person, day, take)];
          remaining := remaining - take;
        }
      }
      day := day + 1;
    }
  }

  method AllocateSplit(task: Task, person: Id, earliest: Date, idx: CapacityIndex, limit: Date)
    returns (allocs: seq<DayAllocation>, start: Date, end: Date)
    requires idx.Valid() && 1 <= task.durationHours
    modifies idx`used
    ensures idx.Valid()
    ensures var p := PlaceSplit(idx.team, idx.ledger, person, task.durationHours, earliest, limit);
            allocs == p.Allocations() && start == p.start && end == p.end
  {
    var first := idx.team.calendar.FirstWorkingDay(earliest);
    var fitted, remaining := FillDays(task.durationHours, person, first, idx, limit);
    allocs := fitted;
    if 0 < remaining {
      allocs := allocs + [DayAllocation(person, first, remaining)];
    }
    assert allocs == PlaceSplit(idx.team, idx.ledger, person, task.durationHours, earliest, limit).Allocations();
    start, end := MinDay(allocs), MaxDay(allocs);
  }

  // External windows ----------------------------------------------------------

  /** The working days a window spans: its hours in days of eight, rounded up. */
  function WindowSpan(hours: int): (span: nat)
    ensures 1 <= span
    ensures span == 1 || 8 * (span - 1) < hours
    ensures hours <= 8 * span
  {
    var days := (hours + DAY_HOURS - 1) / DAY_HOURS;
    if days < 1 then 1 else days
  }

  function PlaceWindow(calendar: WeekendCalendar, hours: int, earliest: Date): Placement {
    var first := calendar.FirstFrom(earliest);
    Placement([], [], first, calendar.Nth(first, WindowSpan(hours)))
  }

  method AllocateWindow(task: Task, earliest: Date, calendar: WeekendCalendar)
    returns (allocs: seq<DayAllocation>, start: Date, end: Date)
    ensures var p := PlaceWindow(calendar, task.durationHours, earliest);
            allocs == p.Allocations() && start == p.start && end == p.end
  {
    var span := WindowSpan(task.durationHours);
    start := calendar.FirstWorkingDay(earliest);
    var last := calendar.NthWorkingDay(start, span);
    allocs, end := [], last.value;
  }

  // One candidate, and the best of several ------------------------------------

  function PlaceOne(team: Team, ledger: seq<DayAllocation>, task: Task, person: Id,
                    earliest: Date, limit: Date): Placement
    requires task.isSplittable ==> 1 <= task.durationHours
  {
    if task.isSplittable then PlaceSplit(team, ledger, person, task.durationHours, earliest, limit)
    else PlaceTogether(team, ledger, [person], task.durationHours, earliest, limit)
  }

  method Allocate(task: Task, person: Id, earliest: Date, idx: CapacityIndex, limit: Date)
    returns (allocs: seq<DayAllocation>, start: Date, end: Date)
    requires idx.Valid() && (task.isSplittable ==> 1 <= task.durationHours)
    modifies idx`used
    ensures idx.Valid()
    ensures var p := PlaceOne(idx.team, idx.ledger, task, person, earliest, limit);
            allocs == p.Allocations() && start == p.start && end == p.end
  {
    if task.isSplittable {
      allocs, start, end := AllocateSplit(task, person, earliest, idx, limit);
    } else {
      allocs, start, end := AllocateSingle(task, person, earliest, idx, limit);
    }
  }

  datatype Choice = Choice(person: Id, placement: Placement)

  /** The place of the first of the earliest placements. */
  function BestIndex(ps: seq<Placement>): (i: nat)
    requires ps != []
    ensures i < |ps|
  {
    var n := |ps| - 1;
    if n == 0 then 0
    else
      var i := BestIndex(ps[..n]);
      if ps[n].Earlier(ps[i]) then n else i
  }

  /** What each candidate could do. */
  function Placements(team: Team, ledger: seq<DayAllocation>, task: Task, candidates: seq<Id>,
                      earliest: Date, limit: Date): (ps: seq<Placement>)
    requires task.isSplittable ==> 1 <= task.durationHours
    ensures |ps| == |candidates|
  {
    if candidates == [] then []
    else
      var n := |candidates| - 1;
      Placements(team, ledger, task, candidates[..n], earliest, limit) +
      [PlaceOne(team, ledger, task, candidates[n], earliest, limit)]
  }

  lemma {:induction false} PlacementAt(team: Team, ledger: seq<DayAllocation>, task: Task, candidates: seq<Id>,
                                       earliest: Date, limit: Date, i: nat)
    requires i < |candidates| && (task.isSplittable ==> 1 <= task.durationHours)
    ensures Placements(team, ledger, task, candidates, earliest, limit)[i] ==
            PlaceOne(team, ledger, task, candidates[i], earliest, limit)
  {
    if i < |candidates| - 1 {
      PlacementAt(team, ledger, task, candidates[..|candidates| - 1], earliest, limit, i);
    }
  }

  /** The candidate with the earliest placement; a later candidate must be strictly earlier. */
  function BestChoice(team: Team, ledger: seq<DayAllocation>, task: Task, candidates: seq<Id>,
                      earliest: Date, limit: Date): Choice
    requires candidates != []
    requires task.isSplittable ==> 1 <= task.durationHours
  {
    var ps := Placements(team, ledger, task, candidates, earliest, limit);
    Choice(candidates[BestIndex(ps)], ps[BestIndex(ps)])
  }

  lemma BestIndexStep(ps: seq<Placement>, i: nat)
    requires 1 <= i < |ps|
    ensures BestIndex(ps[..i + 1]) == if ps[i].Earlier(ps[BestIndex(ps[..i])]) then i else BestIndex(ps[..i])
  {
    assert ps[..i + 1][..i] == ps[..i];
  }

  method Race(task: Task, candidates: seq<Id>, earliest: Date, idx: CapacityIndex, limit: Date)
    returns (allocs: seq<DayAllocation>, start: Date, end: Date, person: Id)
    requires idx.Valid() && (task.isSplittable ==> 1 <= task.durationHours)
    requires candidates != []
    modifies idx`used
    ensures idx.Valid()
    ensures var c := BestChoice(idx.team, idx.ledger, task, candidates, earliest, limit);
            && person == c.person
            && allocs == c.placement.Allocations() && start == c.placement.start && end == c.placement.end
  {
    ghost var ps := Placements(idx.team, idx.ledger, task, candidates, earliest, limit);
    ghost var best := 0;
    PlacementAt(idx.team, idx.ledger, task, candidates, earliest, limit, 0);
    allocs, start, end := Allocate(task, candidates[0], earliest, idx, limit);
    person := candidates[0];
    for i := 1 to |candidates|
      invariant idx.Valid()
      invariant best == BestIndex(ps[..i]) && person == candidates[best]
      invariant allocs == ps[best].Allocations() && start == ps[best].start && end == ps[best].end
    {
      BestIndexStep(ps, i);
      PlacementAt(idx.team, idx.ledger, task, candidates, earliest, limit, i);
      var a, s, e := Allocate(task, candidates[i], earliest, idx, limit);
      if s < start || (s == start && e < end) {
        allocs, start, end, person := a, s, e, candidates[i];
        best := i;
      }
    }
    assert ps[..|candidates|] == ps;
  }
}
