/** Used hours per person and day (`CapacityIndex` in src/planner/domain/solver/greedy.py).

    The specification of the index is a ledger: the plain list of every allocation that was
    ever recorded. The hours of a cell are the sum of the ledger's entries for it. */
module Capacity {
  import opened Calendar
  import opened Models

  datatype Cell = Cell(person: Id, day: Date)

  datatype Overload = Overload(cell: Cell, used: int, base: int)

  // The ledger ------------------------------------------------------------

  function HoursOn(ledger: seq<DayAllocation>, person: Id, day: Date): int {
    if ledger == [] then 0
    else
      var a := ledger[|ledger| - 1];
      HoursOn(ledger[..|ledger| - 1], person, day) +
      if a.person == person && a.day == day then a.hours else 0
  }

  predicate NonNegativeHours(ledger: seq<DayAllocation>) {
    forall a :: a in ledger ==> 0 <= a.hours
  }

  lemma {:induction false} HoursOnConcat(x: seq<DayAllocation>, y: seq<DayAllocation>, person: Id, day: Date)
    ensures HoursOn(x + y, person, day) == HoursOn(x, person, day) + HoursOn(y, person, day)
  {
    if y == [] {
      assert x + y == x;
    } else {
      assert (x + y)[..|x + y| - 1] == x + y[..|y| - 1];
      HoursOnConcat(x, y[..|y| - 1], person, day);
    }
  }

  lemma {:induction false} HoursOnNonNegative(ledger: seq<DayAllocation>, person: Id, day: Date)
    requires NonNegativeHours(ledger)
    ensures 0 <= HoursOn(ledger, person, day)
  {
    if ledger != [] {
      HoursOnNonNegative(ledger[..|ledger| - 1], person, day);
    }
  }

  lemma {:induction false} HoursOnAbsent(ledger: seq<DayAllocation>, person: Id, day: Date)
    requires forall a :: a in ledger ==> a.person != person || a.day != day
    ensures HoursOn(ledger, person, day) == 0
  {
    if ledger != [] {
      HoursOnAbsent(ledger[..|ledger| - 1], person, day);
    }
  }

  lemma HoursOnOne(a: DayAllocation, person: Id, day: Date)
    ensures HoursOn([a], person, day) == if a.person == person && a.day == day then a.hours else 0
  {
    assert [a][..0] == [];
  }

  // Capacity --------------------------------------------------------------

  datatype Team = Team(
    capacity: map<Id, int>,
    calendar: WeekendCalendar,
    overrides: map<Cell, int>)
  {
    /** An override wins, even on a weekend; other days off and strangers have no capacity. */
    function BaseCapacity(person: Id, day: Date): int {
      if Cell(person, day) in overrides then overrides[Cell(person, day)]
      else if !calendar.IsWorkingDay(day) then 0
      else if person in capacity then capacity[person]
      else 0
    }

    predicate NonNegative() {
      && (forall p :: p in capacity ==> 0 <= capacity[p])
      && (forall c :: c in overrides ==> 0 <= overrides[c])
    }

    function Remaining(ledger: seq<DayAllocation>, person: Id, day: Date): int {
      BaseCapacity(person, day) - HoursOn(ledger, person, day)
    }
  }

  function CapacityMap(people: seq<Person>): map<Id, int> {
    if people == [] then map[]
    else
      var p := people[|people| - 1];
      CapacityMap(people[..|people| - 1])[p.id := p.capacityHours]
  }

  function OverrideMap(overrides: seq<DayOverride>): map<Cell, int> {
    if overrides == [] then map[]
    else
      var o := overrides[|overrides| - 1];
      OverrideMap(overrides[..|overrides| - 1])[Cell(o.person, o.day) := o.capacityHours]
  }

  function MakeTeam(people: seq<Person>, calendar: WeekendCalendar, overrides: seq<DayOverride>): Team {
    Team(CapacityMap(people), calendar, OverrideMap(overrides))
  }

  ghost predicate HasOverride(overrides: seq<DayOverride>, person: Id, day: Date) {
    exists o :: o in overrides && o.person == person && o.day == day
  }

  ghost predicate IsLastOverride(overrides: seq<DayOverride>, i: int, person: Id, day: Date) {
    && 0 <= i < |overrides| && overrides[i].person == person && overrides[i].day == day
    && forall k :: i < k < |overrides| ==> overrides[k].person != person || overrides[k].day != day
  }

  ghost predicate IsLastPerson(people: seq<Person>, i: int, person: Id) {
    0 <= i < |people| && people[i].id == person && forall k :: i < k < |people| ==> people[k].id != person
  }

  /** `h` is what a person can work on a day: the hours of the last override for the two, be they
      zero or on a weekend; without one nothing on a holiday or a weekend, and otherwise the capacity
      of the last person of that id. */
  ghost predicate IsCeiling(people: seq<Person>, calendar: WeekendCalendar, overrides: seq<DayOverride>,
                            person: Id, day: Date, h: int)
  {
    if HasOverride(overrides, person, day) then
      exists i :: IsLastOverride(overrides, i, person, day) && h == overrides[i].capacityHours
    else if day in calendar.holidays || day % 7 == 6 || day % 7 == 0 then h == 0
    else if exists p :: p in people && p.id == person then
      exists i :: IsLastPerson(people, i, person) && h == people[i].capacityHours
    else h == 0
  }

  lemma {:induction false} OverrideMapMeaning(overrides: seq<DayOverride>, person: Id, day: Date)
    ensures Cell(person, day) in OverrideMap(overrides) <==> HasOverride(overrides, person, day)
    ensures forall i :: IsLastOverride(overrides, i, person, day) ==>
              HasOverride(overrides, person, day) && OverrideMap(overrides)[Cell(person, day)] == overrides[i].capacityHours
    ensures HasOverride(overrides, person, day) ==> exists i :: IsLastOverride(overrides, i, person, day)
  {
    if overrides != [] {
      var n := |overrides| - 1;
      var init, o := overrides[..n], overrides[n];
      assert overrides == init + [o];
      OverrideMapMeaning(init, person, day);
      if o.person == person && o.day == day {
        assert IsLastOverride(overrides, n, person, day);
      } else {
        assert forall i :: IsLastOverride(overrides, i, person, day) <==> IsLastOverride(init, i, person, day);
      }
    }
  }

  lemma {:induction false} CapacityMapMeaning(people: seq<Person>, person: Id)
    ensures person in CapacityMap(people) <==> exists p :: p in people && p.id == person
    ensures forall i :: IsLastPerson(people, i, person) ==>
              person in CapacityMap(people) && CapacityMap(people)[person] == people[i].capacityHours
    ensures person in CapacityMap(people) ==> exists i :: IsLastPerson(people, i, person)
  {
    if people != [] {
      var n := |people| - 1;
      var init, p := people[..n], people[n];
      assert people == init + [p];
      CapacityMapMeaning(init, person);
      if p.id == person {
        assert IsLastPerson(people, n, person);
      } else {
        assert forall i :: IsLastPerson(people, i, person) <==> IsLastPerson(init, i, person);
      }
    }
  }

  /** The base capacity is that ceiling, and there is only one. */
  lemma BaseCapacityIsCeiling(people: seq<Person>, calendar: WeekendCalendar, overrides: seq<DayOverride>,
                              person: Id, day: Date, h: int)
    ensures IsCeiling(people, calendar, overrides, person, day, h) <==>
            h == MakeTeam(people, calendar, overrides).BaseCapacity(person, day)
  {
    OverrideMapMeaning(overrides, person, day);
    CapacityMapMeaning(people, person);
    calendar.WorkingDayMeaning(day);
  }

  /** Every overloaded cell is reported once, with its use and its ceiling, and no other cell. A
      cell without hours is over its ceiling only where the ceiling is negative; whether the index
      lists it then depends on whether it was looked at, which is left open. */
  ghost predicate IsOverloadReport(team: Team, ledger: seq<DayAllocation>, report: seq<Overload>) {
    && (forall o :: o in report ==>
          && o.used == HoursOn(ledger, o.cell.person, o.cell.day)
          && o.base == team.BaseCapacity(o.cell.person, o.cell.day)
          && o.base < o.used)
    && (forall p, d :: team.BaseCapacity(p, d) < HoursOn(ledger, p, d) && HoursOn(ledger, p, d) != 0 ==>
          exists o :: o in report && o.cell == Cell(p, d))
    && (forall i, j :: 0 <= i < j < |report| ==> report[i].cell != report[j].cell)
  }

  class CapacityIndex {
    const team: Team
    ghost const people: seq<Person>
    ghost const overrides: seq<DayOverride>
    var used: map<Cell, int>
    ghost var ledger: seq<DayAllocation>

    /** What a default dictionary answers for a cell: absent and zero entries look the same. */
    function Lookup(c: Cell): int
      reads this
    {
      if c in used then used[c] else 0
    }

    ghost predicate Valid()
      reads this
    {
      && team == MakeTeam(people, team.calendar, overrides)
      && forall p, d :: Lookup(Cell(p, d)) == HoursOn(ledger, p, d)
    }

    constructor (people: seq<Person>, calendar: WeekendCalendar, overrides: seq<DayOverride>,
                 existing: seq<DayAllocation>)
      ensures Valid()
      ensures team == MakeTeam(people, calendar, overrides)
      ensures this.people == people && this.overrides == overrides
      ensures ledger == existing
    {
      team := MakeTeam(people, calendar, overrides);
      this.people, this.overrides := people, overrides;
      used := map[];
      ledger := [];
      new;
      Occupy(existing);
    }

    /** Reading a cell inserts a zero entry into the dictionary; the ledger does not change. */
    method Remaining(person: Id, day: Date) returns (hours: int)
      requires Valid()
      modifies this`used
      ensures Valid()
      ensures hours == team.Remaining(ledger, person, day)
      ensures IsCeiling(people, team.calendar, overrides, person, day, hours + HoursOn(ledger, person, day))
      ensures used.Keys == old(used).Keys + {Cell(person, day)}
    {
      var c := Cell(person, day);
      if c !in used {
        used := used[c := 0];
      }
      hours := team.BaseCapacity(person, day) - used[c];
      BaseCapacityIsCeiling(people, team.calendar, overrides, person, day, hours + HoursOn(ledger, person, day));
      assert Lookup(c) == HoursOn(ledger, person, day);
    }

    method Occupy(allocations: seq<DayAllocation>)
      requires Valid()
      modifies this
      ensures Valid()
      ensures ledger == old(ledger) + allocations
    {
      for i := 0 to |allocations|
        invariant Valid()
        invariant ledger == old(ledger) + allocations[..i]
      {
        var a := allocations[i];
        var c := Cell(a.person, a.day);
        ghost var before := ledger;
        used := used[c := Lookup(c) + a.hours];
        ledger := ledger + [a];
        assert ledger[..|ledger| - 1] == before;
      }
    }

    method Overloads() returns (report: seq<Overload>)
      requires Valid()
      ensures IsOverloadReport(team, ledger, report)
      ensures forall o :: o in report ==> IsCeiling(people, team.calendar, overrides, o.cell.person, o.cell.day, o.base)
    {
      report := [];
      var pending := used.Keys;
      while pending != {}
        invariant pending <= used.Keys
        invariant forall o :: o in report ==>
          && o.cell in used.Keys - pending
          && o.used == HoursOn(ledger, o.cell.person, o.cell.day)
          && o.base == team.BaseCapacity(o.cell.person, o.cell.day)
          && o.base < o.used
        invariant forall c :: c in used.Keys - pending && team.BaseCapacity(c.person, c.day) < used[c] ==>
          exists o :: o in report && o.cell == c
        invariant forall i, j :: 0 <= i < j < |report| ==> report[i].cell != report[j].cell
        decreases |pending|
      {
        var c :| c in pending;
        pending := pending - {c};
        var base := team.BaseCapacity(c.person, c.day);
        assert Lookup(Cell(c.person, c.day)) == used[c];
        if base < used[c] {
          var o := Overload(c, used[c], base);
          ghost var before := report;
          report := report + [o];
          assert o in report;
          forall x | x in before ensures x in report {}
        }
      }
      forall o | o in report
        ensures IsCeiling(people, team.calendar, overrides, o.cell.person, o.cell.day, o.base)
      {
        BaseCapacityIsCeiling(people, team.calendar, overrides, o.cell.person, o.cell.day, o.base);
      }
      forall p, d | team.BaseCapacity(p, d) < HoursOn(ledger, p, d) && HoursOn(ledger, p, d) != 0
        ensures exists o :: o in report && o.cell == Cell(p, d)
      {
        assert Lookup(Cell(p, d)) == HoursOn(ledger, p, d);
        assert Cell(p, d) in used.Keys;
      }
    }
  }
}
