/** The record editor (screens/CrisisDetailsScreen.tsx): the form state and
    its initial values, the tag toggles, adding a medication, the duration
    text and the save that builds the record and hands it to the store. */
module CrisisDetails {
  import opened Collections
  import opened Types
  import opened Text
  import Store
  import Calendar

  // ---------------------------------------------------------------------
  // Tag lists

  /** `toggleItem`: removes every copy of `item` when the list holds it,
      appends it otherwise. */
  function Toggle(list: seq<string>, item: string): (r: seq<string>)
    ensures item in r <==> item !in list
    ensures forall x :: x != item ==> (x in r <==> x in list)
    ensures item !in list ==> r == list + [item]
    ensures item in list ==> multiset(r) == multiset(list)[item := 0] && SubsequenceOf(r, list)
  {
    WithoutSpec(list, item);
    if item in list then Without(list, item) else list + [item]
  }

  /** Toggling an absent item twice restores the list. */
  lemma ToggleTwice(list: seq<string>, item: string)
    requires item !in list
    ensures Toggle(Toggle(list, item), item) == list
  {
    var once := list + [item];
    assert Toggle(list, item) == once;
    WithoutAppend(list, [item], item);
    WithoutAbsent(list, item);
    assert Without([item], item) == [] by {
      assert Filter([item], (x: string) => x != item) == [];
    }
  }

  // ---------------------------------------------------------------------
  // Durations

  /** `s.split(sep)`: the pieces between the separators, at least one. */
  function SplitOn(s: string, sep: char): (r: seq<string>)
    ensures |r| >= 1
    ensures forall i :: 0 <= i < |r| ==> sep !in r[i]
    ensures Join(r, sep) == s
    decreases |s|
  {
    if s == [] then [""]
    else
      var rest := SplitOn(s[1..], sep);
      if s[0] == sep then [""] + rest
      else
        assert Join([[s[0]] + rest[0]] + rest[1..], sep) == [s[0]] + Join(rest, sep) by {
          JoinHead(s[0], rest, sep);
        }
        [[s[0]] + rest[0]] + rest[1..]
  }

  /** `parts.join(sep)` */
  function Join(parts: seq<string>, sep: char): string
    requires |parts| >= 1
    decreases |parts|
  {
    if |parts| == 1 then parts[0] else parts[0] + [sep] + Join(parts[1..], sep)
  }

  lemma JoinHead(c: char, parts: seq<string>, sep: char)
    requires |parts| >= 1
    ensures Join([[c] + parts[0]] + parts[1..], sep) == [c] + Join(parts, sep)
  {
    var q := [[c] + parts[0]] + parts[1..];
    if |parts| > 1 {
      assert q[1..] == parts[1..];
    }
  }

  /** A string without the separator is a single piece. */
  lemma {:induction false} SplitWithoutSeparator(a: string, sep: char)
    requires sep !in a
    ensures SplitOn(a, sep) == [a]
    decreases |a|
  {
    if a != [] {
      SplitWithoutSeparator(a[1..], sep);
      assert [a[0]] + a[1..] == a;
    }
  }

  /** Splitting at the first separator peels off the piece before it. */
  lemma {:induction false} SplitAtFirst(a: string, rest: string, sep: char)
    requires sep !in a
    ensures SplitOn(a + [sep] + rest, sep) == [a] + SplitOn(rest, sep)
    decreases |a|
  {
    var s := a + [sep] + rest;
    if a == [] {
      assert s[1..] == rest;
    } else {
      assert s[1..] == a[1..] + [sep] + rest;
      SplitAtFirst(a[1..], rest, sep);
      assert [a[0]] + a[1..] == a;
    }
  }

  /** Splitting what was joined gives the pieces back. */
  lemma {:induction false} SplitJoin(parts: seq<string>, sep: char)
    requires |parts| >= 1
    requires forall i :: 0 <= i < |parts| ==> sep !in parts[i]
    ensures SplitOn(Join(parts, sep), sep) == parts
    decreases |parts|
  {
    if |parts| == 1 {
      SplitWithoutSeparator(parts[0], sep);
    } else {
      SplitJoin(parts[1..], sep);
      SplitAtFirst(parts[0], Join(parts[1..], sep), sep);
      assert [parts[0]] + parts[1..] == parts;
    }
  }

  /** A JavaScript number restricted to what a clock field can yield. */
  datatype JsNumber = Num(value: int) | NaN

  /** `Number(s)` for blank and decimal-digit strings; every other string
      is `NaN` here. */
  function NumberOf(s: string): JsNumber {
    var t := Trim(s);
    if t == "" then Num(0) else if IsDigits(t) then Num(DigitsValue(t)) else NaN
  }

  lemma NumberOfDigits(s: string)
    requires IsDigits(s)
    ensures NumberOf(s) == Num(DigitsValue(s))
  {
    assert !IsJsSpace(s[0]) && !IsJsSpace(s[|s| - 1]);
    assert TrimStart(s) == s;
  }

  /** `const [h, m] = t.split(':').map(Number)` then `h * 60 + m`; a missing
      minute part is `undefined`, which makes the sum `NaN`. */
  function ClockMinutes(t: string): JsNumber {
    var parts := SplitOn(t, ':');
    var h := NumberOf(parts[0]);
    var m := if |parts| >= 2 then NumberOf(parts[1]) else NaN;
    if h.Num? && m.Num? then Num(h.value * 60 + m.value) else NaN
  }

  /** JavaScript's `%`, whose result takes the sign of the dividend. */
  function JsRem(a: int, b: int): (r: int)
    requires b > 0
    ensures a >= 0 ==> r == a % b
    ensures -b < r < b
  {
    if a >= 0 then a % b else -((-a) % b)
  }

  const MinutesPerDay := 1440

  /** `calculateDuration`: empty when either time is empty; otherwise the
      minutes from start to end, a day added when the end is earlier, as
      `<hours>h <minutes>m`. */
  function CalculateDuration(startTime: string, endTime: string): string {
    if startTime == "" || endTime == "" then ""
    else DurationText(ClockMinutes(startTime), ClockMinutes(endTime))
  }

  /** The rendering of the difference between two parsed clock readings. */
  function DurationText(s: JsNumber, e: JsNumber): string {
    if s.NaN? || e.NaN? then "NaNh NaNm"
    else
      var d := e.value - s.value;
      var diff := if d < 0 then d + MinutesPerDay else d;
      IntText(diff / 60) + "h " + IntText(JsRem(diff, 60)) + "m"
  }

  /** The `HH:MM` text a time field holds. */
  function ClockText(h: nat, m: nat): string {
    Pad2(h) + ":" + Pad2(m)
  }

  lemma ClockTextMinutes(h: nat, m: nat)
    requires h < 24 && m < 60
    ensures |ClockText(h, m)| == 5
    ensures ClockMinutes(ClockText(h, m)) == Num(h * 60 + m)
  {
    var hh, mm := Pad2(h), Pad2(m);
    Pad2Value(h);
    Pad2Value(m);
    assert SplitOn(ClockText(h, m), ':') == [hh, mm] by {
      Pad2Value(h);
      Pad2Value(m);
      DigitsHaveNoColon(hh);
      DigitsHaveNoColon(mm);
      SplitAtFirst(hh, mm, ':');
      SplitWithoutSeparator(mm, ':');
    }
    assert NumberOf(hh) == Num(h) && NumberOf(mm) == Num(m) by {
      Pad2Value(h);
      Pad2Value(m);
      NumberOfDigits(hh);
      NumberOfDigits(mm);
    }
  }

  lemma DigitsHaveNoColon(s: string)
    requires IsDigits(s)
    ensures ':' !in s
  {
    forall i | 0 <= i < |s| ensures s[i] != ':' {
      assert IsDigit(s[i]);
    }
  }

  /** The minutes from reading `a` to reading `b`, wrapped past midnight. */
  function Elapsed(a: int, b: int): nat {
    (b - a) % MinutesPerDay
  }

  /** `<hours>h <minutes>m` for a number of minutes. */
  function HoursAndMinutes(minutes: nat): string {
    NatText(minutes / 60) + "h " + NatText(minutes % 60) + "m"
  }

  /** Readings `a` and `b` minutes after midnight are `b - a` minutes
      apart, wrapped past midnight, written as hours and minutes. */
  lemma DurationOfMinutes(a: int, b: int)
    requires 0 <= a < MinutesPerDay && 0 <= b < MinutesPerDay
    ensures DurationText(Num(a), Num(b)) == HoursAndMinutes(Elapsed(a, b))
    ensures Elapsed(a, b) / 60 < 24
  {
    var d := b - a;
    var diff := if d < 0 then d + MinutesPerDay else d;
    WrapDay(d);
    assert IntText(diff / 60) == NatText(diff / 60);
    assert IntText(JsRem(diff, 60)) == NatText(diff % 60);
  }

  /** Adding a day to a negative difference is taking it modulo a day. */
  lemma WrapDay(d: int)
    requires -MinutesPerDay < d < MinutesPerDay
    ensures var diff := if d < 0 then d + MinutesPerDay else d;
      0 <= diff < MinutesPerDay && diff == d % MinutesPerDay
  {
  }

  /** For two non-empty fields that read as `a` and `b` minutes after
      midnight, the duration is the wrapped difference. */
  lemma DurationOfReadings(startTime: string, endTime: string, a: int, b: int)
    requires startTime != "" && endTime != ""
    requires ClockMinutes(startTime) == Num(a) && ClockMinutes(endTime) == Num(b)
    requires 0 <= a < MinutesPerDay && 0 <= b < MinutesPerDay
    ensures CalculateDuration(startTime, endTime) == HoursAndMinutes(Elapsed(a, b))
    ensures Elapsed(a, b) / 60 < 24
  {
    DurationOfMinutes(a, b);
  }

  /** A start equal to the end is a zero duration. */
  lemma SameTimeIsZero(t: string, a: int)
    requires t != "" && ClockMinutes(t) == Num(a) && 0 <= a < MinutesPerDay
    ensures CalculateDuration(t, t) == "0h 0m"
  {
    DurationOfReadings(t, t, a, a);
  }

  /** From 22:30 (1350 minutes) to 01:15 (75 minutes) is 2 hours 45 minutes. */
  lemma AcrossMidnight()
    ensures DurationText(Num(22 * 60 + 30), Num(1 * 60 + 15)) == "2h 45m"
  {
    assert DigitChar(4) == '4' && DigitChar(5) == '5';
    assert NatText(45) == "45";
  }

  /** An empty start or end field gives no duration at all. */
  lemma EmptyFieldNoDuration(startTime: string, endTime: string)
    requires startTime == "" || endTime == ""
    ensures CalculateDuration(startTime, endTime) == ""
  {
  }

  /** A time without a minute part makes the duration `NaNh NaNm`. */
  lemma MissingMinutes(startTime: string, endTime: string)
    requires startTime != "" && endTime != "" && ':' !in startTime
    ensures CalculateDuration(startTime, endTime) == "NaNh NaNm"
  {
    SplitWithoutSeparator(startTime, ':');
  }

  // ---------------------------------------------------------------------
  // The form and the record it saves

  /** The editor's form fields. */
  datatype Form = Form(
    isLite: bool, date: int, kind: EntryType, isPeriod: bool,
    startTime: string, endTime: string, intensity: int,
    localization: seq<string>, painQuality: seq<string>, symptoms: seq<string>,
    medications: seq<MedicationEntry>, functionalImpact: FunctionalImpact, notes: string)

  /** The form's initial values: the edited record's fields when there is
      one (each falling back as the `||` chains do), else the defaults.
      Lite mode is on unless the caller asks otherwise. */
  function InitialForm(toEdit: Option<Crisis>, liteRequested: Option<bool>,
                       selectedDate: Option<int>, today: int, clockNow: string): Form
  {
    var isLite := if liteRequested.Some? then liteRequested.value else true;
    match toEdit
    case None =>
      Form(isLite, if selectedDate.Some? then selectedDate.value else today, Pain, false,
           clockNow, "", 0, [], [], [], [], NoImpact, "")
    case Some(c) =>
      Form(isLite, c.date, c.kind, c.isPeriod == Some(true),
           if c.startTime != "" then c.startTime else clockNow,
           if c.endTime.Some? then c.endTime.value else "",
           c.intensity, c.localization, c.painQuality, c.symptoms, c.medications,
           c.functionalImpact, c.notes)
  }

  /** The saved type: pain wins, then medication, then period, else the chosen type. */
  function FinalType(f: Form): EntryType {
    if f.intensity > 0 then Pain
    else if |f.medications| > 0 then Medication
    else if f.isPeriod then Period
    else f.kind
  }

  /** The record `handleSave` builds (without its id). */
  function RecordFrom(f: Form): Crisis {
    Crisis(
      "", f.date, FinalType(f), f.startTime, Some(f.endTime),
      Some(CalculateDuration(f.startTime, f.endTime)), f.intensity,
      if f.isLite then [] else f.localization,
      if f.isLite then [] else f.painQuality,
      if f.isLite then [] else f.symptoms,
      f.medications, f.functionalImpact, f.notes, Some(f.isPeriod),
      Some(if |f.medications| > 0 then f.medications[0].name else ""),
      Some(if |f.medications| > 0 then f.medications[0].dose else ""))
  }

  /** What the calendar shows for a saved record: a positive intensity is a
      pain record with the bolt, medications bring the pill, a period the
      drop; otherwise the chosen type is kept. */
  lemma SavedRecordOnCalendar(f: Form)
    ensures var r := RecordFrom(f);
      (f.intensity > 0 ==> r.kind == Pain && Calendar.MatchesFilter(r, Calendar.PainFilter)
                           && Calendar.Bolt in Calendar.IconsFor([r]))
      && (|f.medications| > 0 ==> Calendar.Pill in Calendar.IconsFor([r]))
      && (f.isPeriod <==> Calendar.MatchesFilter(r, Calendar.PeriodFilter))
      && (f.isPeriod ==> Calendar.WaterDrop in Calendar.IconsFor([r]))
      && (f.intensity <= 0 && |f.medications| > 0 ==> r.kind == Medication)
      && (f.intensity <= 0 && |f.medications| == 0 && !f.isPeriod ==> r.kind == f.kind)
  {
    var r := RecordFrom(f);
    if f.intensity > 0 {
      assert Calendar.IsPain([r][0]);
    }
    if |f.medications| > 0 {
      assert |[r][0].medications| > 0;
    }
    if f.isPeriod {
      assert [r][0].isPeriod == Some(true);
    }
  }

  /** Reopening a saved record in the same mode and saving it unchanged
      stores the same record again. */
  lemma ReopenAndSaveKeepsRecord(f: Form, id: string, selectedDate: Option<int>, today: int, clockNow: string)
    requires f.startTime != ""
    ensures var c := RecordFrom(f).(id := id);
      RecordFrom(InitialForm(Some(c), Some(f.isLite), selectedDate, today, clockNow)).(id := id) == c
  {
  }

  /** The calendar opens a record for editing without asking for the
      detailed mode, so saving it unchanged drops its localization, pain
      quality and symptoms. */
  lemma EditFromCalendarDropsDetails(c: Crisis, today: int, clockNow: string)
    ensures var f := InitialForm(Some(c), None, None, today, clockNow);
      f.isLite && RecordFrom(f).localization == [] && RecordFrom(f).painQuality == []
      && RecordFrom(f).symptoms == [] && RecordFrom(f).medications == c.medications
  {
  }

  /** The editor has no end-time input: a new record starts with an empty
      end time, no editor method changes it, and so it is saved with an
      empty duration. */
  lemma NewEntryHasNoDuration(liteRequested: Option<bool>, selectedDate: Option<int>, today: int, clockNow: string)
    ensures var f := InitialForm(None, liteRequested, selectedDate, today, clockNow);
      f.endTime == "" && RecordFrom(f).endTime == Some("") && RecordFrom(f).duration == Some("")
  {
  }

  /** Whether no two medications share an id. */
  predicate DistinctMedicationIds(ms: seq<MedicationEntry>) {
    forall i, j :: 0 <= i < j < |ms| ==> ms[i].id != ms[j].id
  }

  /** The list after the delete button of the medication `id`
      (`medications.filter(m => m.id !== id)`). */
  function WithoutMedication(ms: seq<MedicationEntry>, id: string): seq<MedicationEntry> {
    Filter(ms, (m: MedicationEntry) => m.id != id)
  }

  /** Deleting a medication removes every entry with its id, keeps every
      other entry in order, and keeps the ids distinct. */
  lemma {:induction false} WithoutMedicationSpec(ms: seq<MedicationEntry>, id: string)
    ensures forall i :: 0 <= i < |WithoutMedication(ms, id)| ==> WithoutMedication(ms, id)[i].id != id
    ensures forall i :: 0 <= i < |ms| && ms[i].id != id ==> ms[i] in WithoutMedication(ms, id)
    ensures SubsequenceOf(WithoutMedication(ms, id), ms)
    ensures DistinctMedicationIds(ms) ==> DistinctMedicationIds(WithoutMedication(ms, id))
    decreases |ms|
  {
    FilterSubsequence(ms, (m: MedicationEntry) => m.id != id);
    if ms != [] && DistinctMedicationIds(ms) {
      var init, last := ms[..|ms| - 1], ms[|ms| - 1];
      WithoutMedicationSpec(init, id);
      var f := WithoutMedication(init, id);
      var r := WithoutMedication(ms, id);
      if last.id != id {
        assert r == f + [last];
        forall i, j | 0 <= i < j < |r|
          ensures r[i].id != r[j].id
        {
          if j == |f| {
            assert r[i] == f[i] && f[i] in init;
            var k :| 0 <= k < |init| && init[k] == f[i];
            assert ms[k] == init[k];
          } else {
            assert r[i] == f[i] && r[j] == f[j];
          }
        }
      } else {
        assert r == f;
      }
    }
  }

  /** The three toggled tag lists. */
  datatype TagList = Localizations | PainQualities | Symptoms

  // ---------------------------------------------------------------------
  // The editor

  class CrisisEditor {
    const editing: Option<Crisis>
    var isLite: bool
    var date: int
    var kind: EntryType
    var isPeriod: bool
    var startTime: string
    var endTime: string
    var intensity: int
    var localization: seq<string>
    var painQuality: seq<string>
    var symptoms: seq<string>
    var medications: seq<MedicationEntry>
    var functionalImpact: FunctionalImpact
    var notes: string
    var showMedForm: bool
    var tempName: string
    var tempDose: string

    ghost function Fields(): Form
      reads this
    {
      Form(isLite, date, kind, isPeriod, startTime, endTime, intensity,
                         localization, painQuality, symptoms, medications, functionalImpact, notes)
    }

    /** Opens the editor on `toEdit`, or on a new record for
        `selectedDate` (today when absent); `clockNow` is the current
        `HH:MM`. */
    constructor (toEdit: Option<Crisis>, liteRequested: Option<bool>,
                 selectedDate: Option<int>, today: int, clockNow: string)
      ensures editing == toEdit
      ensures Fields() == InitialForm(toEdit, liteRequested, selectedDate, today, clockNow)
      ensures !showMedForm && tempName == "" && tempDose == ""
    {
      editing := toEdit;
      isLite := if liteRequested.Some? then liteRequested.value else true;
      match toEdit {
        case None =>
          date := if selectedDate.Some? then selectedDate.value else today;
          kind := Pain;
          isPeriod := false;
          startTime := clockNow;
          endTime := "";
          intensity := 0;
          localization := [];
          painQuality := [];
          symptoms := [];
          medications := [];
          functionalImpact := NoImpact;
          notes := "";
        case Some(c) =>
          date := c.date;
          kind := c.kind;
          isPeriod := c.isPeriod == Some(true);
          startTime := if c.startTime != "" then c.startTime else clockNow;
          endTime := if c.endTime.Some? then c.endTime.value else "";
          intensity := c.intensity;
          localization := c.localization;
          painQuality := c.painQuality;
          symptoms := c.symptoms;
          medications := c.medications;
          functionalImpact := c.functionalImpact;
          notes := c.notes;
      }
      showMedForm := false;
      tempName := "";
      tempDose := "";
    }

    /** The LITE / AVANZADO switch. */
    method SetLite(lite: bool)
      modifies this`isLite
      ensures isLite == lite
    {
      isLite := lite;
    }

    /** The intensity slider. */
    method SetIntensity(value: int)
      modifies this`intensity
      ensures intensity == value
    {
      intensity := value;
    }

    /** The medication name and dose inputs. */
    method SetTempMedication(name: string, dose: string)
      modifies this`tempName, this`tempDose
      ensures tempName == name && tempDose == dose
    {
      tempName := name;
      tempDose := dose;
    }

    /** The date input. */
    method SetDate(day: int)
      modifies this`date
      ensures date == day
    {
      date := day;
    }

    /** The period switch flips the flag. */
    method TogglePeriod()
      modifies this`isPeriod
      ensures isPeriod == !old(isPeriod)
    {
      isPeriod := !isPeriod;
    }

    /** The start-time input. */
    method SetStartTime(t: string)
      modifies this`startTime
      ensures startTime == t
    {
      startTime := t;
    }

    /** The functional-impact buttons. */
    method SetImpact(impact: FunctionalImpact)
      modifies this`functionalImpact
      ensures functionalImpact == impact
    {
      functionalImpact := impact;
    }

    /** The notes text area. */
    method SetNotes(text: string)
      modifies this`notes
      ensures notes == text
    {
      notes := text;
    }

    /** The delete button of a listed medication. */
    method RemoveMedication(id: string)
      modifies this`medications
      ensures medications == WithoutMedication(old(medications), id)
      ensures forall i :: 0 <= i < |medications| ==> medications[i].id != id
      ensures forall i :: 0 <= i < |old(medications)| && old(medications)[i].id != id ==> old(medications)[i] in medications
      ensures DistinctMedicationIds(old(medications)) ==> DistinctMedicationIds(medications)
    {
      WithoutMedicationSpec(medications, id);
      medications := WithoutMedication(medications, id);
    }

    /** A chip of one of the tag lists was pressed. */
    method ToggleTag(list: TagList, item: string)
      modifies this`localization, this`painQuality, this`symptoms
      ensures localization == if list == Localizations then Toggle(old(localization), item) else old(localization)
      ensures painQuality == if list == PainQualities then Toggle(old(painQuality), item) else old(painQuality)
      ensures symptoms == if list == Symptoms then Toggle(old(symptoms), item) else old(symptoms)
    {
      match list {
        case Localizations => localization := Toggle(localization, item);
        case PainQualities => painQuality := Toggle(painQuality, item);
        case Symptoms => symptoms := Toggle(symptoms, item);
      }
    }

    /** `handleAddMed`: nothing without a name; otherwise appends a
        medication with moderate relief taken at `clockNow` and resets the
        small form. `freshId` is the new random identifier. */
    method AddMedication(freshId: string, clockNow: string)
      modifies this`medications, this`tempName, this`tempDose, this`showMedForm
      ensures old(tempName) == "" ==> unchanged(this)
      ensures old(tempName) != "" ==>
        medications == old(medications) + [MedicationEntry(freshId, old(tempName), old(tempDose), clockNow, Moderate)]
        && tempName == "" && tempDose == "" && !showMedForm
      ensures DistinctMedicationIds(old(medications))
              && (forall i :: 0 <= i < |old(medications)| ==> old(medications)[i].id != freshId)
              ==> DistinctMedicationIds(medications)
    {
      if tempName == "" {
        return;
      }
      var entry := MedicationEntry(freshId, tempName, tempDose, clockNow, Moderate);
      medications := medications + [entry];
      tempName := "";
      tempDose := "";
      showMedForm := false;
    }

    /** The record `handleSave` builds from the form: the type decided by
        intensity, then medications, then period; the lists emptied in lite
        mode; the first medication's name and dose copied out. */
    method BuildRecord() returns (data: Crisis)
      ensures data == RecordFrom(Fields())
    {
      var finalType := kind;
      if intensity > 0 {
        finalType := Pain;
      } else if |medications| > 0 {
        finalType := Medication;
      } else if isPeriod {
        finalType := Period;
      }
      assert finalType == FinalType(Fields());
      var medName := if |medications| > 0 then medications[0].name else "";
      var medDose := if |medications| > 0 then medications[0].dose else "";
      data := Crisis(
        "", date, finalType, startTime, Some(endTime),
        Some(CalculateDuration(startTime, endTime)), intensity,
        if isLite then [] else localization,
        if isLite then [] else painQuality,
        if isLite then [] else symptoms,
        medications, functionalImpact, notes, Some(isPeriod), Some(medName), Some(medDose));
    }

    /** `handleSave`: builds the record and updates the edited one by id,
        or adds it as a new record under `freshId`. */
    method Save(store: Store.RecordStore, freshId: string) returns (data: Crisis)
      requires store.Valid()
      modifies store
      ensures store.Valid()
      ensures data == RecordFrom(Fields())
      ensures editing.Some? ==>
        store.Crises() == Store.UpdateById(old(store.Crises()), editing.value.id, PatchWithoutId(data))
      ensures editing.Some? ==> forall i :: 0 <= i < |old(store.Crises())| && old(store.Crises())[i].id == editing.value.id ==>
        store.Crises()[i] == data.(id := editing.value.id)
      ensures editing.None? ==> store.Crises() == old(store.Crises()) + [data.(id := freshId)]
    {
      data := BuildRecord();
      if editing.Some? {
        store.UpdateCrisis(editing.value.id, PatchWithoutId(data));
        Store.UpdateWithCompleteRecord(old(store.Crises()), editing.value.id, data);
      } else {
        var _ := store.SaveCrisis(data, freshId);
      }
    }
  }
}
