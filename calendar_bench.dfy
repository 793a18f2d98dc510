/** The calendar benchmarks: each compares filtering the whole record list
    once per visible day with grouping the records by date once and looking
    each day up. Records carry only an id, a date key ("YYYY-MM-DD") and a
    type, as the benchmarks' mock records do. */
module CalendarBench {
  import opened Collections
  import opened Text

  datatype Entry = Entry(id: string, date: string, kind: string)

  /** `crises.filter(c => c.date === day)` */
  function OnDate(es: seq<Entry>, day: string): seq<Entry> {
    Filter(es, (e: Entry) => e.date == day)
  }

  /** `map[day] || []`: a missing key reads as the empty list. */
  function Lookup<V>(m: map<string, seq<V>>, day: string): seq<V> {
    if day in m then m[day] else []
  }

  /** Appending one entry to the list adds it to its own day only. */
  lemma OnDateStep(es: seq<Entry>, i: int, day: string)
    requires 0 <= i < |es|
    ensures OnDate(es[..i + 1], day) == OnDate(es[..i], day) + (if es[i].date == day then [es[i]] else [])
  {
    assert es[..i + 1][..i] == es[..i];
  }

  /** The grouping loop (`if (!map[c.date]) map[c.date] = []; map[c.date].push(c)`):
      every day looks up exactly the entries the per-day filter finds, in the
      same order, and only days that have entries get a key. */
  method GroupByDate(es: seq<Entry>) returns (m: map<string, seq<Entry>>)
    ensures forall day :: Lookup(m, day) == OnDate(es, day)
    ensures forall day :: day in m ==> m[day] != []
  {
    m := map[];
    for i := 0 to |es|
      invariant forall day :: Lookup(m, day) == OnDate(es[..i], day)
      invariant forall day :: day in m ==> m[day] != []
    {
      var e := es[i];
      ghost var before := m;
      if e.date !in m {
        m := m[e.date := []];
      }
      m := m[e.date := m[e.date] + [e]];
      assert m[e.date] == Lookup(before, e.date) + [e];
      forall day
        ensures Lookup(m, day) == OnDate(es[..i + 1], day)
      {
        OnDateStep(es, i, day);
        if day != e.date {
          assert Lookup(m, day) == Lookup(before, day);
        }
      }
    }
    assert es[..|es|] == es;
  }

  // ---- counting entries per visible day (calendar_perf) ----

  /** The number of entries over all the given days. */
  function TotalOnDates(es: seq<Entry>, days: seq<string>): nat
    decreases |days|
  {
    if days == [] then 0
    else TotalOnDates(es, days[..|days| - 1]) + |OnDate(es, days[|days| - 1])|
  }

  /** The first count: one filter per day. */
  method CountByFilter(es: seq<Entry>, days: seq<string>) returns (count: nat)
    ensures count == TotalOnDates(es, days)
  {
    count := 0;
    for k := 0 to |days|
      invariant count == TotalOnDates(es, days[..k])
    {
      assert days[..k + 1][..k] == days[..k];
      var daily := OnDate(es, days[k]);
      count := count + |daily|;
    }
    assert days[..|days|] == days;
  }

  /** The second count: group once, then look each day up. Both counts
      are the same number. */
  method CountByGroups(es: seq<Entry>, days: seq<string>) returns (count: nat)
    ensures count == TotalOnDates(es, days)
  {
    var byDate := GroupByDate(es);
    count := 0;
    for k := 0 to |days|
      invariant count == TotalOnDates(es, days[..k])
    {
      assert days[..k + 1][..k] == days[..k];
      var daily := Lookup(byDate, days[k]);
      count := count + |daily|;
    }
    assert days[..|days|] == days;
  }

  /** How many of the days equal `day`. */
  function Occurrences(days: seq<string>, day: string): nat
    decreases |days|
  {
    if days == [] then 0
    else Occurrences(days[..|days| - 1], day) + (if days[|days| - 1] == day then 1 else 0)
  }

  /** One more entry adds one to the total for each day it falls on. */
  lemma {:induction false} TotalAddEntry(es: seq<Entry>, e: Entry, days: seq<string>)
    ensures TotalOnDates(es + [e], days) == TotalOnDates(es, days) + Occurrences(days, e.date)
    decreases |days|
  {
    if days != [] {
      var d := days[|days| - 1];
      TotalAddEntry(es, e, days[..|days| - 1]);
      var p := (x: Entry) => x.date == d;
      assert (es + [e])[..|es|] == es;
      assert Filter(es + [e], p) == Filter(es, p) + (if p(e) then [e] else []);
    }
  }

  predicate DistinctDays(days: seq<string>) {
    forall i, j :: 0 <= i < j < |days| ==> days[i] != days[j]
  }

  /** A day listed once occurs once. */
  lemma {:induction false} OccursOnce(days: seq<string>, i: int)
    requires DistinctDays(days) && 0 <= i < |days|
    ensures Occurrences(days, days[i]) == 1
    decreases |days|
  {
    var init := days[..|days| - 1];
    if i < |days| - 1 {
      assert init[i] == days[i];
      OccursOnce(init, i);
    } else {
      NotListed(init, days[i]);
    }
  }

  lemma {:induction false} NotListed(days: seq<string>, day: string)
    requires forall k :: 0 <= k < |days| ==> days[k] != day
    ensures Occurrences(days, day) == 0
    decreases |days|
  {
    if days != [] {
      NotListed(days[..|days| - 1], day);
    }
  }

  /** When the days are distinct and cover every entry's date, both counts
      equal the number of entries (the benchmark's consistency check). */
  lemma {:induction false} CountsCoverAll(es: seq<Entry>, days: seq<string>)
    requires DistinctDays(days)
    requires forall i :: 0 <= i < |es| ==> es[i].date in days
    ensures TotalOnDates(es, days) == |es|
    decreases |es|
  {
    if es == [] {
      NoEntriesNoCount(days);
    } else {
      var init, last := es[..|es| - 1], es[|es| - 1];
      CountsCoverAll(init, days);
      assert es == init + [last];
      TotalAddEntry(init, last, days);
      var k :| 0 <= k < |days| && days[k] == last.date;
      OccursOnce(days, k);
    }
  }

  lemma {:induction false} NoEntriesNoCount(days: seq<string>)
    ensures TotalOnDates([], days) == 0
    decreases |days|
  {
    if days != [] {
      NoEntriesNoCount(days[..|days| - 1]);
    }
  }

  /** The benchmark's month: day `i` of the generator falls on `i % 31 + 1`. */
  function MockDay(i: nat): (d: nat)
    ensures 1 <= d <= 31
  {
    i % 31 + 1
  }

  /** The date key of day `d` of June 2024. */
  function JuneKey(d: nat): string {
    "2024-06-" + Pad2(d)
  }

  /** Different days of the month have different keys. */
  lemma JuneKeysDiffer(a: nat, b: nat)
    requires a < 100 && b < 100 && a != b
    ensures JuneKey(a) != JuneKey(b)
  {
    Pad2Value(a);
    Pad2Value(b);
    assert JuneKey(a)[8..] == Pad2(a);
    assert JuneKey(b)[8..] == Pad2(b);
  }

  /** The generated records: entry `i` on day `MockDay(i)`, all 'Migraña'. */
  function MockEntries(n: nat): (es: seq<Entry>)
    ensures |es| == n
    ensures forall i :: 0 <= i < n ==> es[i].date == JuneKey(MockDay(i))
  {
    seq(n, i requires 0 <= i < n => Entry("id-" + NatText(i), JuneKey(MockDay(i)), "Migraña"))
  }

  /** `dateStrings`: the 31 keys of the month. */
  function MonthKeys(): (days: seq<string>)
    ensures |days| == 31
    ensures forall i :: 0 <= i < 31 ==> days[i] == JuneKey(i + 1)
  {
    seq(31, i requires 0 <= i < 31 => JuneKey(i + 1))
  }

  /** With the generated data both counts are the number of records. */
  lemma MockCountsMatch(n: nat)
    ensures TotalOnDates(MockEntries(n), MonthKeys()) == n
  {
    var days := MonthKeys();
    forall i, j | 0 <= i < j < |days|
      ensures days[i] != days[j]
    {
      JuneKeysDiffer(i + 1, j + 1);
    }
    var es := MockEntries(n);
    forall i | 0 <= i < |es|
      ensures es[i].date in days
    {
      assert es[i].date == days[MockDay(i) - 1];
    }
    CountsCoverAll(es, days);
  }

  // ---- pain icons per visible day (calendar_lookup) ----

  predicate IsPainKind(kind: string) {
    kind == "Migraña" || kind == "Dolor"
  }

  /** `entries.some(e => e.type === 'Migraña' || e.type === 'Dolor')` */
  predicate SomePain(es: seq<Entry>) {
    exists i :: 0 <= i < |es| && IsPainKind(es[i].kind)
  }

  /** Some entry of `day` is a pain entry. */
  predicate PainOn(es: seq<Entry>, day: string) {
    exists i :: 0 <= i < |es| && es[i].date == day && IsPainKind(es[i].kind)
  }

  lemma SomePainOnDate(es: seq<Entry>, day: string)
    ensures SomePain(OnDate(es, day)) <==> PainOn(es, day)
  {
    var daily := OnDate(es, day);
    if SomePain(daily) {
      var i :| 0 <= i < |daily| && IsPainKind(daily[i].kind);
      assert daily[i] in es;
    }
    if PainOn(es, day) {
      var i :| 0 <= i < |es| && es[i].date == day && IsPainKind(es[i].kind);
      assert es[i] in daily;
    }
  }

  /** The number of days, among `days`, that show the pain icon. */
  function PainDays(es: seq<Entry>, days: seq<string>): nat
    decreases |days|
  {
    if days == [] then 0
    else PainDays(es, days[..|days| - 1]) + (if PainOn(es, days[|days| - 1]) then 1 else 0)
  }

  /** `currentApproach`: filter per day, then look for a pain entry. */
  method CurrentApproach(es: seq<Entry>, days: seq<string>) returns (totalIcons: nat)
    ensures totalIcons == PainDays(es, days)
  {
    totalIcons := 0;
    for k := 0 to |days|
      invariant totalIcons == PainDays(es, days[..k])
    {
      assert days[..k + 1][..k] == days[..k];
      var daily := OnDate(es, days[k]);
      SomePainOnDate(es, days[k]);
      if SomePain(daily) {
        totalIcons := totalIcons + 1;
      }
    }
    assert days[..|days|] == days;
  }

  /** `optimizedApproachPrepare`: group by date, then mark each date that
      has a pain entry. */
  method PrepareIconMap(es: seq<Entry>) returns (iconMap: map<string, bool>)
    ensures forall day :: day in iconMap <==> PainOn(es, day)
    ensures forall day :: day in iconMap ==> iconMap[day]
  {
    var byDate := GroupByDate(es);
    iconMap := map[];
    var pending := byDate.Keys;
    while pending != {}
      invariant pending <= byDate.Keys
      invariant forall day :: day in iconMap ==> day in byDate.Keys - pending && iconMap[day]
      invariant forall day :: day in byDate.Keys - pending ==> (day in iconMap <==> PainOn(es, day))
      decreases |pending|
    {
      var day :| day in pending;
      var entries := byDate[day];
      assert entries == OnDate(es, day) by {
        assert Lookup(byDate, day) == OnDate(es, day);
      }
      SomePainOnDate(es, day);
      if SomePain(entries) {
        iconMap := iconMap[day := true];
      }
      pending := pending - {day};
    }
    forall day | PainOn(es, day)
      ensures day in byDate
    {
      SomePainOnDate(es, day);
      assert Lookup(byDate, day) == OnDate(es, day);
    }
  }

  /** The number of days, among `days`, that the map marks. */
  function MarkedDays(iconMap: map<string, bool>, days: seq<string>): nat
    decreases |days|
  {
    if days == [] then 0
    else
      var d := days[|days| - 1];
      MarkedDays(iconMap, days[..|days| - 1]) + (if d in iconMap && iconMap[d] then 1 else 0)
  }

  /** `optimizedApproachRender`: one lookup per day. */
  method RenderCount(iconMap: map<string, bool>, days: seq<string>) returns (totalIcons: nat)
    ensures totalIcons == MarkedDays(iconMap, days)
  {
    totalIcons := 0;
    for k := 0 to |days|
      invariant totalIcons == MarkedDays(iconMap, days[..k])
    {
      assert days[..k + 1][..k] == days[..k];
      if days[k] in iconMap && iconMap[days[k]] {
        totalIcons := totalIcons + 1;
      }
    }
    assert days[..|days|] == days;
  }

  /** A map that marks exactly the pain days renders the same count as the
      per-day filter. */
  lemma {:induction false} PreparedMapCounts(iconMap: map<string, bool>, es: seq<Entry>, days: seq<string>)
    requires forall day :: day in iconMap <==> PainOn(es, day)
    requires forall day :: day in iconMap ==> iconMap[day]
    ensures MarkedDays(iconMap, days) == PainDays(es, days)
    decreases |days|
  {
    if days != [] {
      PreparedMapCounts(iconMap, es, days[..|days| - 1]);
    }
  }

  // ---- Migraña flags per day (calendar_benchmark) ----

  predicate MigraineOn(es: seq<Entry>, day: string) {
    exists i :: 0 <= i < |es| && es[i].date == day && es[i].kind == "Migraña"
  }

  lemma SomeMigraineOnDate(es: seq<Entry>, day: string)
    ensures (exists i :: 0 <= i < |OnDate(es, day)| && OnDate(es, day)[i].kind == "Migraña")
            <==> MigraineOn(es, day)
  {
    var daily := OnDate(es, day);
    if exists i :: 0 <= i < |daily| && daily[i].kind == "Migraña" {
      var i :| 0 <= i < |daily| && daily[i].kind == "Migraña";
      assert daily[i] in es;
    }
    if MigraineOn(es, day) {
      var i :| 0 <= i < |es| && es[i].date == day && es[i].kind == "Migraña";
      assert es[i] in daily;
    }
  }

  /** The baseline: `daily.some(c => c.type === 'Migraña')` on the filtered list. */
  method FlagsByFilter(es: seq<Entry>, days: seq<string>) returns (flags: seq<bool>)
    ensures |flags| == |days|
    ensures forall k :: 0 <= k < |days| ==> (flags[k] <==> MigraineOn(es, days[k]))
  {
    flags := [];
    for k := 0 to |days|
      invariant |flags| == k
      invariant forall j :: 0 <= j < k ==> (flags[j] <==> MigraineOn(es, days[j]))
    {
      var daily := OnDate(es, days[k]);
      SomeMigraineOnDate(es, days[k]);
      var hasPain := exists i :: 0 <= i < |daily| && daily[i].kind == "Migraña";
      flags := flags + [hasPain];
    }
  }

  /** The optimized version: build the map once, then `map[day] || []`. */
  method FlagsByMap(es: seq<Entry>, days: seq<string>) returns (flags: seq<bool>)
    ensures |flags| == |days|
    ensures forall k :: 0 <= k < |days| ==> (flags[k] <==> MigraineOn(es, days[k]))
  {
    var byDate := GroupByDate(es);
    flags := [];
    for k := 0 to |days|
      invariant |flags| == k
      invariant forall j :: 0 <= j < k ==> (flags[j] <==> MigraineOn(es, days[j]))
    {
      var daily := Lookup(byDate, days[k]);
      assert daily == OnDate(es, days[k]);
      SomeMigraineOnDate(es, days[k]);
      var hasPain := exists i :: 0 <= i < |daily| && daily[i].kind == "Migraña";
      flags := flags + [hasPain];
    }
  }
}
