/** How good a placement is: a split task ends as early as any distribution of its hours could,
    a single or paired one starts on the first day with room, the race takes the earliest
    candidate, and more load never brings a task forward. */
module Optimality {
  import opened Calendar
  import opened Models
  import opened Capacity
  import opened Allocators
  import opened Solver
  import opened Shapes
  import opened Dumps

  // Splitting ---------------------------------------------------------------

  /** A spread that places all its hours ends on the day that completes the supply. */
  lemma {:induction false} SpreadEnds(team: Team, ledger: seq<DayAllocation>, person: Id, want: int,
                                      day: Date, limit: Date)
    requires 0 < want && Leftover(team, ledger, person, want, day, limit) <= 0
    ensures var s := Spread(team, ledger, person, want, day, limit);
            && s != []
            && var last := s[|s| - 1].day;
            && day <= last <= limit
            && Supply(team, ledger, person, day, last) < want <= Supply(team, ledger, person, day, last + 1)
    decreases limit - day
  {
    var take := Take(team, ledger, person, want, day);
    var rest := Spread(team, ledger, person, want - take, day + 1, limit);
    if take < want {
      SpreadEnds(team, ledger, person, want - take, day + 1, limit);
      var last := rest[|rest| - 1].day;
      SupplyFront(team, ledger, person, day, last);
      SupplyFront(team, ledger, person, day, last + 1);
    }
  }

  /** A spread that places anything starts on the first day that has something free. */
  lemma {:induction false} SpreadStarts(team: Team, ledger: seq<DayAllocation>, person: Id, want: int,
                                        day: Date, limit: Date)
    requires Spread(team, ledger, person, want, day, limit) != []
    ensures var start := Spread(team, ledger, person, want, day, limit)[0].day;
            && day <= start && 0 < FreeOn(team, ledger, person, start)
            && forall d :: day <= d < start ==> FreeOn(team, ledger, person, d) == 0
    decreases limit - day
  {
    if Take(team, ledger, person, want, day) == 0 {
      SpreadStarts(team, ledger, person, want, day + 1, limit);
    }
  }

  ghost predicate InDayOrder(allocs: seq<DayAllocation>) {
    forall i, j :: 0 <= i < j < |allocs| ==> allocs[i].day < allocs[j].day
  }

  lemma {:induction false} SpreadInOrder(team: Team, ledger: seq<DayAllocation>, person: Id, want: int,
                                         day: Date, limit: Date)
    ensures InDayOrder(Spread(team, ledger, person, want, day, limit))
    decreases limit - day
  {
    if 0 < want && day <= limit {
      var take := Take(team, ledger, person, want, day);
      SpreadInOrder(team, ledger, person, want - take, day + 1, limit);
      SpreadRange(team, ledger, person, want - take, day + 1, limit);
    }
  }

  lemma EndsOfOrdered(allocs: seq<DayAllocation>)
    requires allocs != [] && InDayOrder(allocs)
    ensures MinDay(allocs) == allocs[0].day && MaxDay(allocs) == allocs[|allocs| - 1].day
  {
    var lo, hi := allocs[0], allocs[|allocs| - 1];
    assert lo in allocs && hi in allocs;
    var a :| a in allocs && a.day == MinDay(allocs);
    var b :| b in allocs && b.day == MaxDay(allocs);
    var i :| 0 <= i < |allocs| && allocs[i] == a;
    var j :| 0 <= j < |allocs| && allocs[j] == b;
  }

  /** The dates of a split placement that fits. */
  lemma SplitDates(team: Team, ledger: seq<DayAllocation>, person: Id, hours: int, earliest: Date, limit: Date)
    requires 1 <= hours
    requires PlaceSplit(team, ledger, person, hours, earliest, limit).dumped == []
    ensures var p := PlaceSplit(team, ledger, person, hours, earliest, limit);
            var first := team.calendar.FirstFrom(earliest);
            && first <= p.start <= p.end <= limit
            && 0 < FreeOn(team, ledger, person, p.start)
            && (forall d :: first <= d < p.start ==> FreeOn(team, ledger, person, d) == 0)
            && Supply(team, ledger, person, first, p.end) < hours <= Supply(team, ledger, person, first, p.end + 1)
  {
    hide Spread, Leftover, Supply, FreeOn, MinDay, MaxDay;
    var first := team.calendar.FirstFrom(earliest);
    var p := PlaceSplit(team, ledger, person, hours, earliest, limit);
    SpreadEnds(team, ledger, person, hours, first, limit);
    SpreadStarts(team, ledger, person, hours, first, limit);
    SpreadInOrder(team, ledger, person, hours, first, limit);
    EndsOfOrdered(p.fitted);
    assert p.fitted + p.dumped == p.fitted;
    SplitShape(team, ledger, person, hours, earliest, limit);
  }

  /** The hours a distribution delivers on the days of [a, b). */
  ghost function Delivered(dist: Date -> int, a: Date, b: Date): int
    decreases b - a
  {
    if b <= a then 0 else Delivered(dist, a, b - 1) + dist(b - 1)
  }

  lemma {:induction false} DeliveredWithinSupply(team: Team, ledger: seq<DayAllocation>, person: Id,
                                                 dist: Date -> int, a: Date, b: Date)
    requires forall d :: a <= d < b ==> dist(d) <= FreeOn(team, ledger, person, d)
    ensures Delivered(dist, a, b) <= Supply(team, ledger, person, a, b)
    decreases b - a
  {
    if a < b {
      DeliveredWithinSupply(team, ledger, person, dist, a, b - 1);
    }
  }

  lemma {:induction false} SupplyConcat(team: Team, ledger: seq<DayAllocation>, person: Id, a: Date, b: Date, c: Date)
    requires a <= b <= c
    ensures Supply(team, ledger, person, a, c) ==
            Supply(team, ledger, person, a, b) + Supply(team, ledger, person, b, c)
    decreases c - b
  {
    if b < c {
      SupplyConcat(team, ledger, person, a, b, c - 1);
    }
  }

  lemma {:induction false} NoSupply(team: Team, ledger: seq<DayAllocation>, person: Id, a: Date, b: Date)
    requires forall d :: a <= d < b ==> FreeOn(team, ledger, person, d) == 0
    ensures Supply(team, ledger, person, a, b) == 0
    decreases b - a
  {
    if a < b {
      NoSupply(team, ledger, person, a, b - 1);
    }
  }

  /** A split task that fits ends as early as possible: however its hours are distributed over
      the working days from `earliest` on, within what the person has free, some of them are
      still missing before its end date. Before its start date nothing is free at all. */
  lemma SplitOptimal(team: Team, ledger: seq<DayAllocation>, person: Id, hours: int, earliest: Date, limit: Date,
                     dist: Date -> int)
    requires 1 <= hours
    requires PlaceSplit(team, ledger, person, hours, earliest, limit).dumped == []
    requires forall d :: earliest <= d ==> dist(d) <= FreeOn(team, ledger, person, d)
    ensures var p := PlaceSplit(team, ledger, person, hours, earliest, limit);
            && Delivered(dist, earliest, p.end) < hours
            && 0 < FreeOn(team, ledger, person, p.start)
            && (forall d :: earliest <= d < p.start ==> FreeOn(team, ledger, person, d) == 0)
  {
    var p := PlaceSplit(team, ledger, person, hours, earliest, limit);
    var first := team.calendar.FirstFrom(earliest);
    SplitDates(team, ledger, person, hours, earliest, limit);
    DeliveredWithinSupply(team, ledger, person, dist, earliest, p.end);
    SupplyConcat(team, ledger, person, earliest, first, p.end);
    NoSupply(team, ledger, person, earliest, first);
  }

  /** The schedule of a split task is itself such a distribution, and it delivers all its hours
      by its end date: the bound of `SplitOptimal` is attained. */
  lemma SplitDelivers(team: Team, ledger: seq<DayAllocation>, person: Id, hours: int, earliest: Date, limit: Date)
    requires 1 <= hours
    requires PlaceSplit(team, ledger, person, hours, earliest, limit).dumped == []
    ensures var p := PlaceSplit(team, ledger, person, hours, earliest, limit);
            var dist := (d: Date) => HoursOn(p.fitted, person, d);
            && (forall d :: 0 <= dist(d) <= FreeOn(team, ledger, person, d))
            && Delivered(dist, earliest, p.end + 1) == hours
  {
    var p := PlaceSplit(team, ledger, person, hours, earliest, limit);
    var dist := (d: Date) => HoursOn(p.fitted, person, d);
    var first := team.calendar.FirstFrom(earliest);
    forall d ensures 0 <= dist(d) <= FreeOn(team, ledger, person, d) {
      SpreadOn(team, ledger, person, hours, first, limit, d);
    }
    SplitShape(team, ledger, person, hours, earliest, limit);
    assert p.fitted + p.dumped == p.fitted;
    DeliveredTotal(p.fitted, person, earliest, p.end + 1);
  }

  lemma {:induction false} DeliveredTotal(allocs: seq<DayAllocation>, person: Id, a: Date, b: Date)
    requires forall x :: x in allocs ==> x.person == person && a <= x.day < b
    ensures Delivered((d: Date) => HoursOn(allocs, person, d), a, b) == TotalHours(allocs)
  {
    var dist := (d: Date) => HoursOn(allocs, person, d);
    if allocs == [] {
      DeliveredZero(dist, a, b);
    } else {
      var init, x := allocs[..|allocs| - 1], allocs[|allocs| - 1];
      DeliveredTotal(init, person, a, b);
      DeliveredAdd((d: Date) => HoursOn(init, person, d), dist, x.day, x.hours, a, b);
    }
  }

  lemma {:induction false} DeliveredZero(dist: Date -> int, a: Date, b: Date)
    requires forall d :: dist(d) == 0
    ensures Delivered(dist, a, b) == 0
    decreases b - a
  {
    if a < b {
      DeliveredZero(dist, a, b - 1);
    }
  }

  lemma {:induction false} DeliveredAdd(x: Date -> int, y: Date -> int, day: Date, hours: int, a: Date, b: Date)
    requires forall d :: y(d) == x(d) + if d == day then hours else 0
    ensures Delivered(y, a, b) == Delivered(x, a, b) + if a <= day < b then hours else 0
    decreases b - a
  {
    if a < b {
      DeliveredAdd(x, y, day, hours, a, b - 1);
    }
  }

  // One day -------------------------------------------------------------------

  /** When some day of the horizon has everyone free, the first such day is taken. */
  lemma TogetherEarliest(team: Team, ledger: seq<DayAllocation>, people: seq<Id>, hours: int,
                         earliest: Date, limit: Date, d: Date)
    requires earliest <= d <= limit && AllFree(team, ledger, people, hours, d)
    ensures var p := PlaceTogether(team, ledger, people, hours, earliest, limit);
            && p.dumped == []
            && p.start <= d && AllFree(team, ledger, people, hours, p.start)
            && forall e :: earliest <= e < p.start ==> !AllFree(team, ledger, people, hours, e)
  {
    var first := team.calendar.FirstFrom(earliest);
    var p := PlaceTogether(team, ledger, people, hours, earliest, limit);
    FirstFitLeast(team, ledger, people, hours, first, limit, p.start);
    assert first <= d;
  }

  // The race ------------------------------------------------------------------

  /** No placement is earlier than the best one, and those before it are strictly later. */
  lemma {:induction false} BestIndexLeast(ps: seq<Placement>)
    requires ps != []
    ensures forall j :: 0 <= j < |ps| ==> !ps[j].Earlier(ps[BestIndex(ps)])
    ensures forall j :: 0 <= j < BestIndex(ps) ==> ps[BestIndex(ps)].Earlier(ps[j])
  {
    var n := |ps| - 1;
    if 0 < n {
      BestIndexLeast(ps[..n]);
      assert forall j :: 0 <= j < n ==> ps[..n][j] == ps[j];
    }
  }

  /** The race takes the earliest placement over all candidates, and among equals the
      candidate with the highest priority. */
  lemma {:induction false} BestIsEarliest(team: Team, ledger: seq<DayAllocation>, task: Task, candidates: seq<Id>,
                                          earliest: Date, limit: Date) returns (i: nat)
    requires candidates != []
    requires task.isSplittable ==> 1 <= task.durationHours
    ensures i < |candidates|
    ensures var ps := Placements(team, ledger, task, candidates, earliest, limit);
            && BestChoice(team, ledger, task, candidates, earliest, limit) == Choice(candidates[i], ps[i])
            && ps[i] == PlaceOne(team, ledger, task, candidates[i], earliest, limit)
            && (forall j :: 0 <= j < |ps| ==> !ps[j].Earlier(ps[i]))
            && (forall j :: 0 <= j < i ==> ps[i].Earlier(ps[j]))
  {
    var ps := Placements(team, ledger, task, candidates, earliest, limit);
    i := BestIndex(ps);
    PlacementAt(team, ledger, task, candidates, earliest, limit, i);
    BestIndexLeast(ps);
  }

  /** Before the day the race gives a task, no candidate had room for it. */
  lemma RaceLeavesNoGap(team: Team, ledger: seq<DayAllocation>, task: Task, candidates: seq<Id>,
                        earliest: Date, limit: Date, q: Id, e: Date)
    requires q in candidates && !task.isSplittable && earliest <= e <= limit
    requires e < BestChoice(team, ledger, task, candidates, earliest, limit).placement.start
    ensures !AllFree(team, ledger, [q], task.durationHours, e)
  {
    var k := BestIsEarliest(team, ledger, task, candidates, earliest, limit);
    var j :| 0 <= j < |candidates| && candidates[j] == q;
    PlacementAt(team, ledger, task, candidates, earliest, limit, j);
    if AllFree(team, ledger, [q], task.durationHours, e) {
      TogetherEarliest(team, ledger, [q], task.durationHours, earliest, limit, e);
    }
  }

  /** No day of the horizon has room for the whole task. */
  ghost predicate NeverFree(team: Team, ledger: seq<DayAllocation>, person: Id, hours: int, first: Date, limit: Date) {
    forall d :: first <= d <= limit ==> !AllFree(team, ledger, [person], hours, d)
  }

  lemma OnePersonStart(team: Team, ledger: seq<DayAllocation>, person: Id, hours: int, earliest: Date, limit: Date)
    ensures var p := PlaceTogether(team, ledger, [person], hours, earliest, limit);
            var first := team.calendar.FirstFrom(earliest);
            && first <= p.start == p.end
            && (p.dumped != [] <==> NeverFree(team, ledger, person, hours, first, limit))
            && (p.start == first <==> p.dumped != [] || AllFree(team, ledger, [person], hours, first))
  {
    var p := PlaceTogether(team, ledger, [person], hours, earliest, limit);
    var first := team.calendar.FirstFrom(earliest);
    FirstFitLeast(team, ledger, [person], hours, first, limit, p.start);
    DumpedExactly(team, ledger, [person], hours, earliest, limit);
  }

  /** Placement `i` wins against placement `j`: an earlier candidate must be strictly earlier, a
      later one must not be. */
  predicate Beats(ps: seq<Placement>, i: nat, j: nat)
    requires i < |ps| && j < |ps|
  {
    if j < i then ps[i].Earlier(ps[j]) else !ps[j].Earlier(ps[i])
  }

  /** The race ends in a dump exactly when some dumped placement beats all that fit. */
  lemma DumpedIffBeats(ps: seq<Placement>)
    requires ps != []
    ensures ps[BestIndex(ps)].dumped != [] <==>
            exists i :: 0 <= i < |ps| && ps[i].dumped != [] &&
                        forall j :: 0 <= j < |ps| && ps[j].dumped == [] ==> Beats(ps, i, j)
  {
    var k := BestIndex(ps);
    BestIndexLeast(ps);
    if ps[k].dumped != [] {
      assert forall j :: 0 <= j < |ps| ==> Beats(ps, k, j);
    }
    if i :| 0 <= i < |ps| && ps[i].dumped != [] &&
            forall j :: 0 <= j < |ps| && ps[j].dumped == [] ==> Beats(ps, i, j)
    {
      if i != k {
        assert !Beats(ps, i, k);
      }
    }
  }

  /** A candidate who has no room within the horizon is dumped on the first day, and the race
      takes that for an early start. So an unsplittable task is dumped exactly when some candidate
      has no room and nobody of higher priority is free on the very first day, whoever else has
      room later. */
  lemma DumpWinsRace(team: Team, ledger: seq<DayAllocation>, task: Task, candidates: seq<Id>,
                     earliest: Date, limit: Date)
    requires candidates != [] && !task.isSplittable
    ensures var first := team.calendar.FirstFrom(earliest);
            BestChoice(team, ledger, task, candidates, earliest, limit).placement.dumped != [] <==>
            exists i :: 0 <= i < |candidates|
                        && NeverFree(team, ledger, candidates[i], task.durationHours, first, limit)
                        && forall j :: 0 <= j < i ==> !AllFree(team, ledger, [candidates[j]], task.durationHours, first)
  {
    var first := team.calendar.FirstFrom(earliest);
    var ps := Placements(team, ledger, task, candidates, earliest, limit);
    var k := BestIsEarliest(team, ledger, task, candidates, earliest, limit);
    forall j | 0 <= j < |candidates|
      ensures first <= ps[j].start == ps[j].end
      ensures ps[j].dumped != [] <==> NeverFree(team, ledger, candidates[j], task.durationHours, first, limit)
      ensures ps[j].start == first <==>
                ps[j].dumped != [] || AllFree(team, ledger, [candidates[j]], task.durationHours, first)
    {
      PlacementAt(team, ledger, task, candidates, earliest, limit, j);
      OnePersonStart(team, ledger, candidates[j], task.durationHours, earliest, limit);
    }
    if i :| 0 <= i < |candidates|
            && NeverFree(team, ledger, candidates[i], task.durationHours, first, limit)
            && forall j :: 0 <= j < i ==> !AllFree(team, ledger, [candidates[j]], task.durationHours, first)
    {
      assert !ps[i].Earlier(ps[k]);
    }
  }

  // Dumps of split tasks --------------------------------------------------------

  /** The last day of the horizon with anything free; the first day where there is none. */
  function LastFree(team: Team, ledger: seq<DayAllocation>, person: Id, first: Date, limit: Date): (d: Date)
    ensures first <= d && (d <= limit || d == first)
    ensures d == first || 0 < FreeOn(team, ledger, person, d)
    ensures forall e :: d < e <= limit ==> FreeOn(team, ledger, person, e) == 0
    decreases limit - first
  {
    if limit <= first then first
    else if 0 < FreeOn(team, ledger, person, limit) then limit
    else LastFree(team, ledger, person, first, limit - 1)
  }

  /** Where hours are left over, every free day was taken. */
  lemma {:induction false} ShortTakesAll(team: Team, ledger: seq<DayAllocation>, person: Id, want: int,
                                         day: Date, limit: Date, d: Date)
    requires 0 < Leftover(team, ledger, person, want, day, limit)
    requires day <= d <= limit && 0 < FreeOn(team, ledger, person, d)
    ensures exists a :: a in Spread(team, ledger, person, want, day, limit) && a.day == d
    decreases limit - day
  {
    var take := Take(team, ledger, person, want, day);
    var rest := Spread(team, ledger, person, want - take, day + 1, limit);
    if d == day {
      assert DayAllocation(person, day, take) in Spread(team, ledger, person, want, day, limit);
    } else {
      ShortTakesAll(team, ledger, person, want - take, day + 1, limit, d);
      var a :| a in rest && a.day == d;
      assert a in Spread(team, ledger, person, want, day, limit);
    }
  }

  /** A split placement that is dumped runs from the first working day to the last free one. */
  lemma DumpedSplitDates(team: Team, ledger: seq<DayAllocation>, person: Id, hours: int, earliest: Date, limit: Date)
    requires 1 <= hours
    requires PlaceSplit(team, ledger, person, hours, earliest, limit).dumped != []
    ensures var p := PlaceSplit(team, ledger, person, hours, earliest, limit);
            var first := team.calendar.FirstFrom(earliest);
            p.start == first && p.end == LastFree(team, ledger, person, first, limit)
  {
    hide LastFree, MinDay, MaxDay, Spread;
    var p := PlaceSplit(team, ledger, person, hours, earliest, limit);
    var first := team.calendar.FirstFrom(earliest);
    var last := LastFree(team, ledger, person, first, limit);
    SpreadRange(team, ledger, person, hours, first, limit);
    assert p.dumped[0] in p.Allocations() && p.dumped[0].day == first;
    if first < last {
      ShortTakesAll(team, ledger, person, hours, first, limit, last);
      var a :| a in p.fitted && a.day == last;
      assert a in p.Allocations();
    }
    EndsOfWork(p.Allocations());
    forall a | a in p.Allocations() ensures first <= a.day <= last {
      if a in p.fitted {
        assert 0 < FreeOn(team, ledger, person, a.day);
      }
    }
  }

  /** The horizon cannot supply the hours. */
  predicate Short(team: Team, ledger: seq<DayAllocation>, person: Id, hours: int, first: Date, limit: Date) {
    Supply(team, ledger, person, first, limit + 1) < hours
  }

  /** Whoever can take the whole task starts after the first day, or is not done before day `e`. */
  predicate NotDoneBefore(team: Team, ledger: seq<DayAllocation>, person: Id, hours: int, first: Date, limit: Date, e: Date) {
    || Short(team, ledger, person, hours, first, limit)
    || FreeOn(team, ledger, person, first) == 0
    || Supply(team, ledger, person, first, e) < hours
  }

  /** A split placement that fits, against one that runs from the first day to `e`. */
  lemma SplitAgainst(team: Team, ledger: seq<DayAllocation>, person: Id, hours: int, earliest: Date, limit: Date, e: Date)
    requires 1 <= hours
    ensures var p := PlaceSplit(team, ledger, person, hours, earliest, limit);
            var first := team.calendar.FirstFrom(earliest);
            && (p.dumped != [] <==> Short(team, ledger, person, hours, first, limit))
            && (p.dumped == [] ==> (first < p.start || (p.start == first && e <= p.end) <==>
                                    NotDoneBefore(team, ledger, person, hours, first, limit, e)))
  {
    hide Spread, FreeOn, MinDay, MaxDay;
    var p := PlaceSplit(team, ledger, person, hours, earliest, limit);
    var first := team.calendar.FirstFrom(earliest);
    LeftoverIsShortage(team, ledger, person, hours, first, limit);
    if p.dumped == [] {
      SplitDates(team, ledger, person, hours, earliest, limit);
      if first <= e <= p.end {
        SupplyGrows(team, ledger, person, first, e, p.end);
      } else if p.end < e {
        SupplyGrows(team, ledger, person, first, p.end + 1, e);
      }
    }
  }

  /** A split task is dumped exactly when some candidate `i` cannot be supplied, and everyone who
      could take the whole task starts after the first day or is not done before `i` is: not by
      the end of that day where they have priority over `i`, not by its beginning otherwise. */
  lemma SplitDumpWinsRace(team: Team, ledger: seq<DayAllocation>, task: Task, candidates: seq<Id>,
                          earliest: Date, limit: Date)
    requires candidates != [] && task.isSplittable && 1 <= task.durationHours
    ensures var first := team.calendar.FirstFrom(earliest);
            BestChoice(team, ledger, task, candidates, earliest, limit).placement.dumped != [] <==>
            exists i :: 0 <= i < |candidates|
                        && Short(team, ledger, candidates[i], task.durationHours, first, limit)
                        && SlowerThan(team, ledger, task, candidates, first, limit, i)
  {
    var first := team.calendar.FirstFrom(earliest);
    var ps := Placements(team, ledger, task, candidates, earliest, limit);
    DumpedIffBeats(ps);
    forall i | 0 <= i < |candidates|
      ensures ps[i].dumped != [] <==> Short(team, ledger, candidates[i], task.durationHours, first, limit)
      ensures ps[i].dumped != [] ==>
                ((forall j :: 0 <= j < |ps| && ps[j].dumped == [] ==> Beats(ps, i, j)) <==>
                 SlowerThan(team, ledger, task, candidates, first, limit, i))
    {
      PlacementAt(team, ledger, task, candidates, earliest, limit, i);
      SplitAgainst(team, ledger, candidates[i], task.durationHours, earliest, limit, first);
      if ps[i].dumped != [] {
        BeatsIsSlower(team, ledger, task, candidates, earliest, limit, i);
      }
    }
  }

  ghost predicate SlowerThan(team: Team, ledger: seq<DayAllocation>, task: Task, candidates: seq<Id>,
                             first: Date, limit: Date, i: nat)
    requires i < |candidates|
  {
    forall j :: 0 <= j < |candidates| ==>
      NotDoneBefore(team, ledger, candidates[j], task.durationHours, first, limit,
                    LastFree(team, ledger, candidates[i], first, limit) + if j < i then 1 else 0)
  }

  lemma BeatsIsSlower(team: Team, ledger: seq<DayAllocation>, task: Task, candidates: seq<Id>,
                      earliest: Date, limit: Date, i: nat)
    requires i < |candidates| && task.isSplittable && 1 <= task.durationHours
    requires Placements(team, ledger, task, candidates, earliest, limit)[i].dumped != []
    ensures var first := team.calendar.FirstFrom(earliest);
            var ps := Placements(team, ledger, task, candidates, earliest, limit);
            (forall j :: 0 <= j < |ps| && ps[j].dumped == [] ==> Beats(ps, i, j)) <==>
            SlowerThan(team, ledger, task, candidates, first, limit, i)
  {
    hide PlaceSplit, NotDoneBefore, LastFree, Placements, Short;
    var first := team.calendar.FirstFrom(earliest);
    var ps := Placements(team, ledger, task, candidates, earliest, limit);
    var e := LastFree(team, ledger, candidates[i], first, limit);
    PlacementAt(team, ledger, task, candidates, earliest, limit, i);
    DumpedSplitDates(team, ledger, candidates[i], task.durationHours, earliest, limit);
    forall j | 0 <= j < |ps|
      ensures (ps[j].dumped == [] ==> Beats(ps, i, j)) <==>
              NotDoneBefore(team, ledger, candidates[j], task.durationHours, first, limit, e + if j < i then 1 else 0)
    {
      PlacementAt(team, ledger, task, candidates, earliest, limit, j);
      if Short(team, ledger, candidates[j], task.durationHours, first, limit) {
        ShortNotDone(team, ledger, candidates[j], task.durationHours, first, limit, e + if j < i then 1 else 0);
      }
      SplitStartsFrom(team, ledger, candidates[j], task.durationHours, earliest, limit);
      SplitAgainst(team, ledger, candidates[j], task.durationHours, earliest, limit, e + if j < i then 1 else 0);
    }
  }

  lemma ShortNotDone(team: Team, ledger: seq<DayAllocation>, person: Id, hours: int, first: Date, limit: Date, e: Date)
    requires Short(team, ledger, person, hours, first, limit)
    ensures NotDoneBefore(team, ledger, person, hours, first, limit, e)
  {
  }

  lemma SplitStartsFrom(team: Team, ledger: seq<DayAllocation>, person: Id, hours: int, earliest: Date, limit: Date)
    requires 1 <= hours
    ensures team.calendar.FirstFrom(earliest) <= PlaceSplit(team, ledger, person, hours, earliest, limit).start
  {
    SplitWork(team, ledger, person, hours, earliest, limit);
    EndsOfWork(PlaceSplit(team, ledger, person, hours, earliest, limit).Allocations());
  }

  // More load -----------------------------------------------------------------

  ghost predicate AtMostAsLoaded(light: seq<DayAllocation>, heavy: seq<DayAllocation>) {
    forall person, day :: HoursOn(light, person, day) <= HoursOn(heavy, person, day)
  }

  lemma {:induction false} SupplyMonotone(team: Team, light: seq<DayAllocation>, heavy: seq<DayAllocation>,
                                          person: Id, a: Date, b: Date)
    requires AtMostAsLoaded(light, heavy)
    ensures Supply(team, heavy, person, a, b) <= Supply(team, light, person, a, b)
    decreases b - a
  {
    if a < b {
      SupplyMonotone(team, light, heavy, person, a, b - 1);
    }
  }

  lemma TogetherMonotone(team: Team, light: seq<DayAllocation>, heavy: seq<DayAllocation>, people: seq<Id>,
                         hours: int, earliest: Date, limit: Date)
    requires AtMostAsLoaded(light, heavy)
    requires PlaceTogether(team, heavy, people, hours, earliest, limit).dumped == [] && people != []
    ensures var p, q := PlaceTogether(team, light, people, hours, earliest, limit),
                        PlaceTogether(team, heavy, people, hours, earliest, limit);
            p.dumped == [] && p.start <= q.start && p.end <= q.end
  {
    var q := PlaceTogether(team, heavy, people, hours, earliest, limit);
    FirstFitLeast(team, heavy, people, hours, team.calendar.FirstFrom(earliest), limit, q.start);
    assert AllFree(team, heavy, people, hours, q.start);
    assert AllFree(team, light, people, hours, q.start);
    TogetherEarliest(team, light, people, hours, earliest, limit, q.start);
  }

  lemma SplitMonotone(team: Team, light: seq<DayAllocation>, heavy: seq<DayAllocation>, person: Id,
                      hours: int, earliest: Date, limit: Date)
    requires AtMostAsLoaded(light, heavy) && 1 <= hours
    requires PlaceSplit(team, heavy, person, hours, earliest, limit).dumped == []
    ensures var p, q := PlaceSplit(team, light, person, hours, earliest, limit),
                        PlaceSplit(team, heavy, person, hours, earliest, limit);
            p.dumped == [] && p.start <= q.start && p.end <= q.end
  {
    var first := team.calendar.FirstFrom(earliest);
    var p := PlaceSplit(team, light, person, hours, earliest, limit);
    var q := PlaceSplit(team, heavy, person, hours, earliest, limit);
    SplitDates(team, heavy, person, hours, earliest, limit);
    SupplyMonotone(team, light, heavy, person, first, q.end + 1);
    SupplyGrows(team, light, person, first, q.end + 1, limit + 1);
    LeftoverIsShortage(team, light, person, hours, first, limit);
    SplitDates(team, light, person, hours, earliest, limit);
    if q.end < p.end {
      SupplyGrows(team, light, person, first, q.end + 1, p.end);
    }
    assert 0 < FreeOn(team, light, person, q.start);
  }

  lemma SupplyGrows(team: Team, ledger: seq<DayAllocation>, person: Id, a: Date, b: Date, c: Date)
    requires a <= b <= c
    ensures Supply(team, ledger, person, a, b) <= Supply(team, ledger, person, a, c)
  {
    SupplyConcat(team, ledger, person, a, b, c);
    SupplyNonNegative(team, ledger, person, b, c);
  }

  lemma OneMonotone(team: Team, light: seq<DayAllocation>, heavy: seq<DayAllocation>, task: Task, person: Id,
                    earliest: Date, limit: Date)
    requires AtMostAsLoaded(light, heavy)
    requires task.isSplittable ==> 1 <= task.durationHours
    requires PlaceOne(team, heavy, task, person, earliest, limit).dumped == []
    ensures var p, q := PlaceOne(team, light, task, person, earliest, limit),
                        PlaceOne(team, heavy, task, person, earliest, limit);
            p.dumped == [] && p.start <= q.start && p.end <= q.end
  {
    if task.isSplittable {
      SplitMonotone(team, light, heavy, person, task.durationHours, earliest, limit);
    } else {
      TogetherMonotone(team, light, heavy, [person], task.durationHours, earliest, limit);
    }
  }

  /** Under a heavier load a task is placed no earlier, start first and end second, unless the
      horizon has no room and it is dumped. */
  lemma LoadMonotone(people: seq<Person>, team: Team, light: seq<DayAllocation>, heavy: seq<DayAllocation>,
                     task: Task, earliest: Date, limit: Date)
    requires people != [] && AtMostAsLoaded(light, heavy)
    requires task.isSplittable ==> 1 <= task.durationHours
    requires PlaceTask(people, team, heavy, task, earliest, limit).placement.dumped == []
    ensures var p, q := PlaceTask(people, team, light, task, earliest, limit).placement,
                        PlaceTask(people, team, heavy, task, earliest, limit).placement;
            !q.Earlier(p)
  {
    var candidates := Eligible(people, task);
    if task.isWindow {
    } else if task.pairMode == RequiredPair && 2 <= |candidates| {
      TogetherMonotone(team, light, heavy, [candidates[0], candidates[1]], task.durationHours, earliest, limit);
    } else {
      var i := BestIsEarliest(team, heavy, task, candidates, earliest, limit);
      var k := BestIsEarliest(team, light, task, candidates, earliest, limit);
      OneMonotone(team, light, heavy, task, candidates[i], earliest, limit);
      var ps := Placements(team, light, task, candidates, earliest, limit);
      PlacementAt(team, light, task, candidates, earliest, limit, i);
      assert !ps[i].Earlier(ps[k]);
    }
  }
}
