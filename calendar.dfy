/** The calendar screen (screens/CalendarScreen.tsx): the month grid, the
    type filter, the per-day icons and the list of the selected day's
    records. Day keys are the integer date keys of the records. */
module Calendar {
  import opened Collections
  import opened Types
  import Store
  import opened Text

  /** 'Todos' | 'Dolor' | 'Medicina' | 'Periodo' | 'Descanso' */
  datatype DayFilter = All | PainFilter | MedicationFilter | PeriodFilter | RestFilter

  /** `matchesFilter` */
  predicate MatchesFilter(c: Crisis, f: DayFilter) {
    match f
    case All => true
    case PainFilter => c.kind == Migraine || c.kind == Pain
    case PeriodFilter => c.isPeriod == Some(true)
    case MedicationFilter => c.kind == Medication
    case RestFilter => c.kind == Rest
  }

  /** The records dated `day`, in list order (`crises.filter(c => c.date === dateStr)`). */
  function EntriesOn(crises: seq<Crisis>, day: int): seq<Crisis> {
    Filter(crises, (c: Crisis) => c.date == day)
  }

  /** `dayCrises`: the selected day's records that match the active filter. */
  function DayCrises(crises: seq<Crisis>, selectedDay: int, f: DayFilter): seq<Crisis> {
    Filter(crises, (c: Crisis) => c.date == selectedDay && MatchesFilter(c, f))
  }

  /** The selected day's list holds exactly the records of that day that
      match the filter; with 'Todos' it is the whole day, and no filter
      lists a record the whole day does not. */
  lemma DayCrisesSpec(crises: seq<Crisis>, day: int, f: DayFilter)
    ensures forall i :: 0 <= i < |DayCrises(crises, day, f)| ==>
      DayCrises(crises, day, f)[i].date == day && MatchesFilter(DayCrises(crises, day, f)[i], f)
    ensures forall i :: 0 <= i < |crises| && crises[i].date == day && MatchesFilter(crises[i], f) ==>
      crises[i] in DayCrises(crises, day, f)
    ensures DayCrises(crises, day, All) == EntriesOn(crises, day)
    ensures multiset(DayCrises(crises, day, f)) <= multiset(EntriesOn(crises, day))
  {
    FilterCongruent(crises, (c: Crisis) => c.date == day && MatchesFilter(c, All), (c: Crisis) => c.date == day);
    DayFilterSubMultiset(crises, day, f);
  }

  lemma {:induction false} DayFilterSubMultiset(crises: seq<Crisis>, day: int, f: DayFilter)
    ensures multiset(DayCrises(crises, day, f)) <= multiset(EntriesOn(crises, day))
    decreases |crises|
  {
    if crises != [] {
      var init := crises[..|crises| - 1];
      DayFilterSubMultiset(init, day, f);
    }
  }

  /** The four day icons, in their fixed display order. */
  datatype Icon = Bolt | Pill | WaterDrop | Bed

  /** The icon's colour class. */
  function IconColor(i: Icon): string {
    match i
    case Bolt => "text-primary"
    case Pill => "text-emerald-400"
    case WaterDrop => "text-rose-400"
    case Bed => "text-secondary"
  }

  function Rank(i: Icon): nat {
    match i
    case Bolt => 0
    case Pill => 1
    case WaterDrop => 2
    case Bed => 3
  }

  predicate IsPain(c: Crisis) {
    c.kind == Migraine || c.kind == Pain
  }

  predicate HasPain(daily: seq<Crisis>) {
    exists i :: 0 <= i < |daily| && IsPain(daily[i])
  }

  predicate HasMedication(daily: seq<Crisis>) {
    exists i :: 0 <= i < |daily| && (|daily[i].medications| > 0 || daily[i].kind == Medication)
  }

  predicate HasPeriod(daily: seq<Crisis>) {
    exists i :: 0 <= i < |daily| && daily[i].isPeriod == Some(true)
  }

  predicate HasRest(daily: seq<Crisis>) {
    exists i :: 0 <= i < |daily| && daily[i].kind == Rest
  }

  /** The icons `getDayIcons` shows for one day's records: each icon at most
      once, always in the order bolt, pill, water drop, bed. */
  function IconsFor(daily: seq<Crisis>): (r: seq<Icon>)
    ensures Increasing(r)
    ensures |r| <= 4
    ensures Bolt in r <==> HasPain(daily)
    ensures Pill in r <==> HasMedication(daily)
    ensures WaterDrop in r <==> HasPeriod(daily)
    ensures Bed in r <==> HasRest(daily)
  {
    IconRow(HasPain(daily), HasMedication(daily), HasPeriod(daily), HasRest(daily))
  }

  /** The icons whose flags are set, in rank order. */
  function IconRow(pain: bool, med: bool, period: bool, rest: bool): (r: seq<Icon>)
    ensures Increasing(r)
    ensures |r| <= 4
    ensures (Bolt in r <==> pain) && (Pill in r <==> med)
    ensures (WaterDrop in r <==> period) && (Bed in r <==> rest)
  {
    var withPain := AddIcon([], pain, Bolt);
    var withMed := AddIcon(withPain, med, Pill);
    var withPeriod := AddIcon(withMed, period, WaterDrop);
    AddIcon(withPeriod, rest, Bed)
  }

  predicate Increasing(r: seq<Icon>) {
    forall i, j :: 0 <= i < j < |r| ==> Rank(r[i]) < Rank(r[j])
  }

  /** One `push`: appending an icon that outranks every icon already there
      keeps the row in rank order. */
  function AddIcon(r: seq<Icon>, flag: bool, i: Icon): (s: seq<Icon>)
    requires Increasing(r) && forall k :: 0 <= k < |r| ==> Rank(r[k]) < Rank(i)
    ensures Increasing(s) && forall k :: 0 <= k < |s| ==> Rank(s[k]) <= Rank(i)
    ensures forall x :: x in s <==> x in r || (flag && x == i)
    ensures |s| == |r| + (if flag then 1 else 0)
  {
    if flag then r + [i] else r
  }

  /** `getDayIcons(dateStr)`: pushes one icon per kind of entry found that day. */
  method DayIcons(crises: seq<Crisis>, day: int) returns (icons: seq<Icon>)
    ensures icons == IconsFor(EntriesOn(crises, day))
  {
    var daily := EntriesOn(crises, day);
    icons := [];
    var hasPain := HasPain(daily);
    var hasMed := HasMedication(daily);
    var hasPeriod := HasPeriod(daily);
    var hasRest := HasRest(daily);
    if hasPain { icons := icons + [Bolt]; }
    assert icons == AddIcon([], hasPain, Bolt);
    if hasMed { icons := icons + [Pill]; }
    assert icons == AddIcon(AddIcon([], hasPain, Bolt), hasMed, Pill);
    if hasPeriod { icons := icons + [WaterDrop]; }
    assert icons == AddIcon(AddIcon(AddIcon([], hasPain, Bolt), hasMed, Pill), hasPeriod, WaterDrop);
    if hasRest { icons := icons + [Bed]; }
  }

  /** The filters and the icons agree: a day lists something under 'Dolor',
      'Periodo' or 'Descanso' exactly when it shows the bolt, the drop or
      the bed, and something under 'Medicina' only when it shows the pill. */
  lemma FiltersAgreeWithIcons(crises: seq<Crisis>, day: int)
    ensures DayCrises(crises, day, PainFilter) != [] <==> Bolt in IconsFor(EntriesOn(crises, day))
    ensures DayCrises(crises, day, PeriodFilter) != [] <==> WaterDrop in IconsFor(EntriesOn(crises, day))
    ensures DayCrises(crises, day, RestFilter) != [] <==> Bed in IconsFor(EntriesOn(crises, day))
    ensures DayCrises(crises, day, MedicationFilter) != [] ==> Pill in IconsFor(EntriesOn(crises, day))
  {
    var daily := EntriesOn(crises, day);
    assert DayCrises(crises, day, PainFilter) != [] <==> HasPain(daily) by {
      ListedIffDayMatches(crises, day, PainFilter);
    }
    assert DayCrises(crises, day, PeriodFilter) != [] <==> HasPeriod(daily) by {
      ListedIffDayMatches(crises, day, PeriodFilter);
    }
    assert DayCrises(crises, day, RestFilter) != [] <==> HasRest(daily) by {
      ListedIffDayMatches(crises, day, RestFilter);
    }
    assert DayCrises(crises, day, MedicationFilter) != [] ==> HasMedication(daily) by {
      ListedIffDayMatches(crises, day, MedicationFilter);
    }
  }

  /** The selected day lists something exactly when one of its records
      matches the filter. */
  lemma ListedIffDayMatches(crises: seq<Crisis>, day: int, f: DayFilter)
    ensures var daily := EntriesOn(crises, day);
      DayCrises(crises, day, f) != [] <==> exists i :: 0 <= i < |daily| && MatchesFilter(daily[i], f)
  {
    var daily := EntriesOn(crises, day);
    var listed := DayCrises(crises, day, f);
    if listed != [] {
      assert listed[0] in crises;
      assert listed[0] in daily;
    }
    if exists i :: 0 <= i < |daily| && MatchesFilter(daily[i], f) {
      var i :| 0 <= i < |daily| && MatchesFilter(daily[i], f);
      assert daily[i] in crises;
      var k :| 0 <= k < |crises| && crises[k] == daily[i];
      assert crises[k] in listed;
    }
  }

  /** `startOffset`: the number of leading cells in a Monday-first week for
      a month whose first day has JavaScript weekday `firstDay` (0 = Sunday). */
  function StartOffset(firstDay: int): (r: int)
    requires 0 <= firstDay <= 6
    ensures 0 <= r <= 6
    ensures (r + 1) % 7 == firstDay
  {
    if firstDay == 0 then 6 else firstDay - 1
  }

  /** Monday-first column of a JavaScript weekday (Monday 0 ... Sunday 6). */
  function MondayColumn(weekday: int): int {
    (weekday + 6) % 7
  }

  /** Every day of the month lands in the column of its own weekday: day
      `d` is cell `startOffset + d - 1` and its weekday is `firstDay + d - 1`
      modulo 7. */
  lemma DayInItsWeekdayColumn(firstDay: int, d: int)
    requires 0 <= firstDay <= 6 && d >= 1
    ensures (StartOffset(firstDay) + d - 1) % 7 == MondayColumn((firstDay + d - 1) % 7)
  {
    var x := firstDay + d - 1;
    if firstDay != 0 {
      ShiftWeek(x - 1, 1);
    }
    ShiftWeek(x % 7 + 6, x / 7);
  }

  /** Adding whole weeks does not change the weekday. */
  lemma ShiftWeek(a: int, weeks: int)
    ensures (a + 7 * weeks) % 7 == a % 7
  {
    var q, m := a / 7, a % 7;
    assert a + 7 * weeks == 7 * (q + weeks) + m;
  }

  /** `dayArray`: 1, 2, ..., `days`. */
  function DayArray(days: nat): (r: seq<int>)
    ensures |r| == days
    ensures forall i :: 0 <= i < days ==> r[i] == i + 1
  {
    seq(days, i requires 0 <= i < days => i + 1)
  }

  /** `prevMonthFill`: the last `startOffset` days of the previous month. */
  function PrevMonthFill(startOffset: nat, prevMonthDays: int): (r: seq<int>)
    ensures |r| == startOffset
    ensures forall i :: 0 <= i < startOffset ==> r[i] == prevMonthDays - startOffset + i + 1
  {
    seq(startOffset, i requires 0 <= i < startOffset => prevMonthDays - startOffset + i + 1)
  }

  /** The fill is a run of consecutive days ending with the previous
      month's last day. */
  lemma PrevMonthFillEndsAtLastDay(startOffset: nat, prevMonthDays: int)
    requires startOffset > 0
    ensures PrevMonthFill(startOffset, prevMonthDays)[startOffset - 1] == prevMonthDays
    ensures forall i :: 0 <= i < startOffset - 1 ==>
      PrevMonthFill(startOffset, prevMonthDays)[i + 1] == PrevMonthFill(startOffset, prevMonthDays)[i] + 1
  {
  }

  /** The cells of the month grid in reading order: the tail of the
      previous month, then the days of the month. */
  function MonthCells(firstDay: int, days: nat, prevMonthDays: int): seq<int>
    requires 0 <= firstDay <= 6
  {
    PrevMonthFill(StartOffset(firstDay), prevMonthDays) + DayArray(days)
  }

  /** Day `d` of a month whose first day has weekday `firstDay` falls on
      weekday `firstDay + d - 1` modulo 7. In the grid it is cell
      `startOffset + d - 1`, which shows `d` and sits in that weekday's
      column; the cells before it end with the previous month's last day. */
  lemma MonthGrid(firstDay: int, days: nat, prevMonthDays: int, d: int)
    requires 0 <= firstDay <= 6 && 1 <= d <= days
    ensures var o := StartOffset(firstDay);
      var cells := MonthCells(firstDay, days, prevMonthDays);
      && |cells| == o + days
      && cells[o + d - 1] == d
      && (o + d - 1) % 7 == MondayColumn((firstDay + d - 1) % 7)
      && (o > 0 ==> cells[o - 1] == prevMonthDays)
  {
    DayInItsWeekdayColumn(firstDay, d);
  }

  /** The day key the model uses for a date: `YYYYMMDD` read as a number. */
  function DayKey(y: nat, m: nat, d: nat): int {
    y * 10000 + m * 100 + d
  }

  /** The date string of a day (`toISOString().split('T')[0]`): `YYYY-MM-DD`. */
  function IsoDate(y: nat, m: nat, d: nat): string {
    Pad2(y / 100) + (Pad2(y % 100) + ("-" + (Pad2(m) + ("-" + Pad2(d)))))
  }

  /** The add button's guard: `selectedDay <= today` on the date strings. */
  predicate CanAddOn(selectedDay: string, today: string) {
    JsLessEq(selectedDay, today)
  }

  /** Two numbers in base 100 compare by their high parts, then their low digits. */
  lemma Base100Order(x1: nat, r1: nat, x2: nat, r2: nat)
    requires r1 < 100 && r2 < 100
    ensures x1 * 100 + r1 <= x2 * 100 + r2 <==> x1 < x2 || (x1 == x2 && r1 <= r2)
  {
    if x1 < x2 {
      assert x1 * 100 + r1 < (x1 + 1) * 100 <= x2 * 100;
    } else if x2 < x1 {
      assert x2 * 100 + r2 < (x2 + 1) * 100 <= x1 * 100;
    }
  }

  /** The string comparison of the guard orders dates as their day keys do:
      adding is offered exactly on the days up to today. */
  lemma AddGuard(y1: nat, m1: nat, d1: nat, y2: nat, m2: nat, d2: nat)
    requires y1 < 10000 && m1 < 100 && d1 < 100
    requires y2 < 10000 && m2 < 100 && d2 < 100
    ensures CanAddOn(IsoDate(y1, m1, d1), IsoDate(y2, m2, d2)) <==> DayKey(y1, m1, d1) <= DayKey(y2, m2, d2)
  {
    var yh1, yl1, yh2, yl2 := y1 / 100, y1 % 100, y2 / 100, y2 % 100;
    Pad2Order(yh1, yh2);
    Pad2Order(yl1, yl2);
    Pad2Order(m1, m2);
    Pad2Order(d1, d2);
    Pad2Value(yh1); Pad2Value(yh2); Pad2Value(yl1); Pad2Value(yl2);
    Pad2Value(m1); Pad2Value(m2);
    var u1, u2 := "-" + Pad2(d1), "-" + Pad2(d2);
    var t1, t2 := Pad2(m1) + u1, Pad2(m2) + u2;
    var s1, s2 := "-" + t1, "-" + t2;
    var r1, r2 := Pad2(yl1) + s1, Pad2(yl2) + s2;
    assert !JsLess("-", "-");
    JsLessEqConcat("-", "-", Pad2(d1), Pad2(d2));
    JsLessEqConcat(Pad2(m1), Pad2(m2), u1, u2);
    JsLessEqConcat("-", "-", t1, t2);
    JsLessEqConcat(Pad2(yl1), Pad2(yl2), s1, s2);
    JsLessEqConcat(Pad2(yh1), Pad2(yh2), r1, r2);
    Base100Order(yh1, yl1, yh2, yl2);
    Base100Order(y1, m1, y2, m2);
    Base100Order(y1 * 100 + m1, d1, y2 * 100 + m2, d2);
    assert DayKey(y1, m1, d1) == (y1 * 100 + m1) * 100 + d1;
    assert DayKey(y2, m2, d2) == (y2 * 100 + m2) * 100 + d2;
  }

  /** The screen state that the rendering reads. */
  class CalendarView {
    var crises: seq<Crisis>
    var selectedDay: int
    var activeFilter: DayFilter

    /** Whether the add button is offered: the selected day is today or
        earlier. Day keys compare as their date strings do (`AddGuard`). */
    predicate AddOffered(today: int)
      reads this
    {
      selectedDay <= today
    }

    /** The screen as written: the record list starts empty and nothing
        loads it when the screen mounts. */
    constructor (today: int)
      ensures crises == [] && selectedDay == today && activeFilter == All
      ensures AddOffered(today)
    {
      crises := [];
      selectedDay := today;
      activeFilter := All;
    }

    /** The screen as evidently intended: the record list is loaded from
        the store when the screen mounts. */
    constructor Open(store: Store.RecordStore, today: int)
      requires store.Valid()
      modifies store`crisesCache
      ensures store.Valid() && store.Crises() == old(store.Crises())
      ensures crises == old(store.Crises()) && selectedDay == today && activeFilter == All
      ensures AddOffered(today)
    {
      var loaded := store.GetCrises();
      crises := loaded;
      selectedDay := today;
      activeFilter := All;
    }

    method SelectDay(day: int)
      modifies this`selectedDay
      ensures selectedDay == day
      ensures forall today :: AddOffered(today) <==> day <= today
    {
      selectedDay := day;
    }

    method SetFilter(f: DayFilter)
      modifies this`activeFilter
      ensures activeFilter == f
    {
      activeFilter := f;
    }

    /** The delete button: deletes through the store and refreshes the list. */
    method Delete(store: Store.RecordStore, id: string)
      requires store.Valid()
      modifies store, this`crises
      ensures store.Valid()
      ensures crises == store.Crises() == Store.RemoveById(old(store.Crises()), id)
    {
      store.DeleteCrisis(id);
      crises := store.GetCrises();
    }
  }

  /** With the list never loaded, every day of the grid is blank and the
      selected day lists nothing, whatever the store holds. */
  lemma UnloadedCalendarIsBlank(day: int, f: DayFilter)
    ensures IconsFor(EntriesOn([], day)) == [] && DayCrises([], day, f) == []
  {
  }

  /** Once loaded, a day shows the bolt exactly when the store holds a
      migraine or pain record for it. */
  lemma LoadedCalendarShowsStoredPain(crises: seq<Crisis>, day: int)
    ensures Bolt in IconsFor(EntriesOn(crises, day)) <==>
      exists i :: 0 <= i < |crises| && crises[i].date == day && IsPain(crises[i])
  {
    var daily := EntriesOn(crises, day);
    if exists i :: 0 <= i < |crises| && crises[i].date == day && IsPain(crises[i]) {
      var i :| 0 <= i < |crises| && crises[i].date == day && IsPain(crises[i]);
      assert crises[i] in daily;
    }
    if HasPain(daily) {
      var j :| 0 <= j < |daily| && IsPain(daily[j]);
      assert daily[j] in crises;
    }
  }
}
