/** Events on the month calendar (frontend/components/events/month-calendar.tsx). */
module MonthEvents {
  import opened Options
  import opened Gregorian
  import opened Calendar

  datatype Event = Event(id: string, eventDate: Option<string>)

  /** The day an event belongs to; an undated or malformed event has none. */
  function DayFor(ev: Event): Option<Date> {
    match ev.eventDate
    case None => None
    case Some(iso) => ParseLocalDate(iso)
  }

  /** The events of one day, in their given order. */
  function OnDay(events: seq<Event>, d: Date): seq<Event> {
    if events == [] then []
    else (if DayFor(events[0]) == Some(d) then [events[0]] else []) + OnDay(events[1..], d)
  }

  function Bucket(byDay: map<string, seq<Event>>, iso: string): seq<Event> {
    if iso in byDay then byDay[iso] else []
  }

  /** Every day's bucket holds exactly that day's events. */
  ghost predicate Buckets(byDay: map<string, seq<Event>>, events: seq<Event>) {
    forall d: Date :: Bucket(byDay, ToISODate(d)) == OnDay(events, d)
  }

  /** The events of a day keep the order in which they were given. */
  lemma {:induction false} OnDayConcat(before: seq<Event>, after: seq<Event>, d: Date)
    ensures OnDay(before + after, d) == OnDay(before, d) + OnDay(after, d)
    decreases |before|
  {
    hide ParseLocalDate;
    if before == [] {
      assert before + after == after;
    } else {
      assert (before + after)[1..] == before[1..] + after;
      OnDayConcat(before[1..], after, d);
    }
  }

  lemma OnDaySnoc(events: seq<Event>, ev: Event, d: Date)
    ensures OnDay(events + [ev], d) == OnDay(events, d) + if DayFor(ev) == Some(d) then [ev] else []
  {
    hide ParseLocalDate;
    OnDayConcat(events, [ev], d);
    assert [ev][1..] == [];
  }

  lemma AddToBucket(byDay: map<string, seq<Event>>, events: seq<Event>, ev: Event)
    requires Buckets(byDay, events)
    ensures DayFor(ev) == None ==> Buckets(byDay, events + [ev])
    ensures DayFor(ev).Some? ==>
              var iso := ToISODate(DayFor(ev).value);
              Buckets(byDay[iso := Bucket(byDay, iso) + [ev]], events + [ev])
  {
    hide ToISODate, ParseLocalDate, OnDay;
    forall d: Date
      ensures OnDay(events + [ev], d) == Bucket(byDay, ToISODate(d)) + if DayFor(ev) == Some(d) then [ev] else []
    {
      OnDaySnoc(events, ev, d);
    }
    if DayFor(ev).Some? {
      var iso := ToISODate(DayFor(ev).value);
      forall d: Date | ToISODate(d) == iso
        ensures DayFor(ev) == Some(d)
      {
        ToISODateIsInjective(d, DayFor(ev).value);
      }
    }
  }

  lemma NothingBucketed()
    ensures Buckets(map[], [])
  {
    hide ToISODate;
  }

  lemma Undated(ev: Event)
    ensures ev.eventDate == Some("") ==> DayFor(ev) == None
  {
  }

  /** The loop that fills the map. */
  method BucketByDay(events: seq<Event>) returns (byDay: map<string, seq<Event>>)
    ensures Buckets(byDay, events)
    ensures forall iso :: iso in byDay ==> byDay[iso] != []
  {
    hide ToISODate, ParseLocalDate, OnDay;
    byDay := map[];
    assert Buckets(byDay, events[..0]) by {
      NothingBucketed();
    }
    hide Buckets;
    for i := 0 to |events|
      invariant Buckets(byDay, events[..i])
      invariant forall iso :: iso in byDay ==> byDay[iso] != []
    {
      var ev := events[i];
      assert events[..i + 1] == events[..i] + [ev];
      Undated(ev);
      AddToBucket(byDay, events[..i], ev);
      if ev.eventDate == None || ev.eventDate == Some("") {
        continue;
      }
      var d := ParseLocalDate(ev.eventDate.value);
      if d == None {
        continue;
      }
      var iso := ToISODate(d.value);
      if iso in byDay {
        byDay := byDay[iso := byDay[iso] + [ev]];
      } else {
        byDay := byDay[iso := [ev]];
        assert [] + [ev] == [ev];
      }
    }
    assert events[..|events|] == events;
  }

  // ---------------------------------------------------------------- conservation

  function Flat(weeks: seq<seq<DayCell>>): seq<DayCell> {
    if weeks == [] then [] else weeks[0] + Flat(weeks[1..])
  }

  /** A grid as `BuildMonthGrid` leaves it. */
  ghost predicate GridFor(weeks: seq<seq<DayCell>>, year: int, month: int, today: Date) {
    |weeks| == 6 && forall w :: 0 <= w < 6 ==> WeekFor(weeks[w], GridStart(year, month) + 7 * w, year, month, today)
  }

  ghost predicate DaysFrom(cells: seq<DayCell>, from: Date, year: int, month: int, today: Date) {
    forall k :: 0 <= k < |cells| ==> CellFor(cells[k], from + k, year, month, today)
  }

  lemma {:induction false} FlatWeeks(weeks: seq<seq<DayCell>>, from: Date, year: int, month: int, today: Date)
    requires forall w :: 0 <= w < |weeks| ==> WeekFor(weeks[w], from + 7 * w, year, month, today)
    ensures |Flat(weeks)| == 7 * |weeks| && DaysFrom(Flat(weeks), from, year, month, today)
    decreases |weeks|
  {
    hide CellFor;
    if weeks != [] {
      var rest := weeks[1..];
      assert WeekFor(weeks[0], from, year, month, today);
      forall w | 0 <= w < |rest|
        ensures WeekFor(rest[w], from + 7 + 7 * w, year, month, today)
      {
        assert WeekFor(weeks[w + 1], from + 7 * (w + 1), year, month, today);
      }
      FlatWeeks(rest, from + 7, year, month, today);
      forall k | 7 <= k < |Flat(weeks)|
        ensures CellFor(Flat(weeks)[k], from + k, year, month, today)
      {
        assert CellFor(Flat(rest)[k - 7], from + 7 + (k - 7), year, month, today);
      }
    }
  }

  /** An event is shown in the cell of its own day and in no other. */
  lemma EventInOneCell(weeks: seq<seq<DayCell>>, events: seq<Event>, byDay: map<string, seq<Event>>,
                       year: int, month: int, today: Date, ev: Event, k: nat)
    requires GridFor(weeks, year, month, today) && Buckets(byDay, events) && ev in events && k < 42
    ensures |Flat(weeks)| == 42
    ensures ev in Bucket(byDay, Flat(weeks)[k].iso) <==> DayFor(ev) == Some(GridStart(year, month) + k)
  {
    hide GridStart, ToISODate, InMonth, Flat, WeekFor, ParseLocalDate, OnDay;
    FlatWeeks(weeks, GridStart(year, month), year, month, today);
    assert CellFor(Flat(weeks)[k], GridStart(year, month) + k, year, month, today);
    MembersOfDay(events, GridStart(year, month) + k, ev);
  }

  lemma {:induction false} MembersOfDay(events: seq<Event>, d: Date, ev: Event)
    ensures ev in OnDay(events, d) <==> ev in events && DayFor(ev) == Some(d)
    decreases |events|
  {
    if events != [] {
      MembersOfDay(events[1..], d, ev);
    }
  }

  lemma CellIso(weeks: seq<seq<DayCell>>, year: int, month: int, today: Date, k: nat)
    requires GridFor(weeks, year, month, today) && k < 42
    ensures |Flat(weeks)| == 42 && Flat(weeks)[k].iso == ToISODate(GridStart(year, month) + k)
  {
    hide GridStart, ToISODate, InMonth, Flat, WeekFor;
    FlatWeeks(weeks, GridStart(year, month), year, month, today);
    assert CellFor(Flat(weeks)[k], GridStart(year, month) + k, year, month, today);
  }

  /** An event that is dated with a real day is shown in the one cell that carries its date string, and an
      event without a date, or with a malformed one, in none. */
  lemma ShownUnderItsDate(weeks: seq<seq<DayCell>>, events: seq<Event>, byDay: map<string, seq<Event>>,
                          year: int, month: int, today: Date, ev: Event, k: nat)
    requires GridFor(weeks, year, month, today) && Buckets(byDay, events) && ev in events && k < 42
    ensures |Flat(weeks)| == 42
    ensures ev.eventDate == None || !Shaped(ev.eventDate.value) ==> ev !in Bucket(byDay, Flat(weeks)[k].iso)
    ensures ev.eventDate.Some? && Shaped(ev.eventDate.value) && NamesRealDay(ev.eventDate.value) ==>
              (ev in Bucket(byDay, Flat(weeks)[k].iso) <==> Flat(weeks)[k].iso == ev.eventDate.value)
  {
    hide GridStart, ToISODate, Flat, GridFor, NamesRealDay, Shaped, Buckets, Bucket;
    EventInOneCell(weeks, events, byDay, year, month, today, ev, k);
    CellIso(weeks, year, month, today, k);
    if ev.eventDate.Some? && Shaped(ev.eventDate.value) && NamesRealDay(ev.eventDate.value) {
      PrintParsed(ev.eventDate.value);
      ToISODateIsInjective(GridStart(year, month) + k, DayFor(ev).value);
    }
  }

  /** The reduction of the calendar's announcement, over cells marked as in the month. */
  function CountInMonth(cells: seq<DayCell>, byDay: map<string, seq<Event>>): nat {
    if cells == [] then 0
    else (if cells[0].inMonth then |Bucket(byDay, cells[0].iso)| else 0) + CountInMonth(cells[1..], byDay)
  }

  /** How many events are dated in the month on show. */
  ghost function DatedIn(events: seq<Event>, year: int, month: int): nat {
    if events == [] then 0
    else
      (if DayFor(events[0]).Some? && InMonth(DayFor(events[0]).value, year, month) then 1 else 0)
      + DatedIn(events[1..], year, month)
  }

  ghost predicate DatedOn(ev: Event, from: Date, n: nat, year: int, month: int) {
    DayFor(ev).Some? && from <= DayFor(ev).value < from + n && InMonth(DayFor(ev).value, year, month)
  }

  /** The same, restricted to the days from..from+n. */
  ghost function DatedWithin(events: seq<Event>, from: Date, n: nat, year: int, month: int): nat {
    if events == [] then 0
    else
      (if DatedOn(events[0], from, n, year, month) then 1 else 0) + DatedWithin(events[1..], from, n, year, month)
  }

  lemma {:induction false} DatedWithinStep(events: seq<Event>, from: Date, n: nat, year: int, month: int)
    requires n > 0
    ensures DatedWithin(events, from, n, year, month)
         == (if InMonth(from, year, month) then |OnDay(events, from)| else 0)
          + DatedWithin(events, from + 1, n - 1, year, month)
    decreases |events|
  {
    if events != [] {
      DatedWithinStep(events[1..], from, n, year, month);
    }
  }

  lemma {:induction false} DatedWithinNothing(events: seq<Event>, from: Date, year: int, month: int)
    ensures DatedWithin(events, from, 0, year, month) == 0
    decreases |events|
  {
    if events != [] {
      DatedWithinNothing(events[1..], from, year, month);
    }
  }

  lemma {:induction false} DatedWithinGrid(events: seq<Event>, year: int, month: int)
    requires 0 <= month < 12
    ensures DatedWithin(events, GridStart(year, month), 42, year, month) == DatedIn(events, year, month)
    decreases |events|
  {
    hide GridStart, InMonth, ParseLocalDate;
    if events != [] {
      GridCoversAll(year, month);
      DatedWithinGrid(events[1..], year, month);
    }
  }

  lemma {:induction false} CountCells(cells: seq<DayCell>, from: Date, events: seq<Event>,
                                      byDay: map<string, seq<Event>>, year: int, month: int, today: Date)
    requires 0 <= month < 12 && DaysFrom(cells, from, year, month, today) && Buckets(byDay, events)
    ensures CountInMonth(cells, byDay) == DatedWithin(events, from, |cells|, year, month)
    decreases |cells|
  {
    hide InMonth, ToISODate, Bucket;
    if cells == [] {
      DatedWithinNothing(events, from, year, month);
    } else {
      assert CellFor(cells[0], from + 0, year, month, today);
      forall k | 0 <= k < |cells[1..]|
        ensures CellFor(cells[1..][k], from + 1 + k, year, month, today)
      {
        assert CellFor(cells[k + 1], from + (k + 1), year, month, today);
      }
      CountCells(cells[1..], from + 1, events, byDay, year, month, today);
      DatedWithinStep(events, from, |cells|, year, month);
    }
  }

  /** The announced number is the number of events dated in the month on show. */
  lemma AnnouncedCount(weeks: seq<seq<DayCell>>, events: seq<Event>, byDay: map<string, seq<Event>>,
                       year: int, month: int, today: Date)
    requires 0 <= month < 12 && GridFor(weeks, year, month, today) && Buckets(byDay, events)
    ensures CountInMonth(Flat(weeks), byDay) == DatedIn(events, year, month)
  {
    hide GridStart, CellFor, CountInMonth, DatedIn, DatedWithin;
    FlatWeeks(weeks, GridStart(year, month), year, month, today);
    CountCells(Flat(weeks), GridStart(year, month), events, byDay, year, month, today);
    DatedWithinGrid(events, year, month);
  }
}
