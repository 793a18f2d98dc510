/** The two read-only aggregations of the record store (storeService.ts,
    `getStats` and `getClinicalInsights`), over the list of records in the
    order the store keeps them. */
module Analytics {
  import opened Collections
  import opened Types

  /** Milliseconds in a day, `1000 * 3600 * 24`. */
  const DAY: int := 1000 * 3600 * 24

  /** The start of the 30-day window ending at `now`. */
  function Cutoff(now: int): int {
    now - 30 * DAY
  }

  /** The records dated at or after the cutoff, in list order. */
  function Recent(cs: seq<Crisis>, now: int): seq<Crisis> {
    Filter(cs, (c: Crisis) => c.date >= Cutoff(now))
  }

  /** The sum of the intensities (the `reduce` over the recent records). */
  function SumIntensity(cs: seq<Crisis>): int
    decreases |cs|
  {
    if cs == [] then 0 else SumIntensity(cs[..|cs| - 1]) + cs[|cs| - 1].intensity
  }

  function Max(a: int, b: int): int {
    if a < b then b else a
  }

  /** The latest date in a non-empty list: the date of `sorted[0]` after the
      descending sort in `getStats`. */
  function MaxDate(cs: seq<Crisis>): (r: int)
    requires cs != []
    ensures exists i :: 0 <= i < |cs| && cs[i].date == r
    ensures forall i :: 0 <= i < |cs| ==> cs[i].date <= r
    decreases |cs|
  {
    if |cs| == 1 then cs[0].date
    else
      var m := MaxDate(cs[..|cs| - 1]);
      assert cs[..|cs| - 1][0] == cs[0];
      Max(m, cs[|cs| - 1].date)
  }

  /** The average intensity: `"0"` when there is no recent record, otherwise
      the quotient `sum / count` that the source formats with one decimal. */
  datatype Average = NoRecent | Mean(sum: int, count: nat)

  datatype Stats = Stats(totalRecent: nat, avgIntensity: Average, totalHistory: nat, daysFree: nat)

  /** Whole days from `last` to `now`, floored, never negative. */
  function DaysSince(now: int, last: int): (r: nat)
    ensures r * DAY <= Max(0, now - last) < (r + 1) * DAY
  {
    Max(0, (now - last) / DAY)
  }

  /** `getStats` on the record list `cs` at time `now`. */
  function ComputeStats(cs: seq<Crisis>, now: int): (r: Stats)
    ensures r.totalHistory == |cs|
    ensures r.totalRecent == |Recent(cs, now)| <= r.totalHistory
    ensures r.avgIntensity == NoRecent <==> forall i :: 0 <= i < |cs| ==> cs[i].date < Cutoff(now)
    ensures r.avgIntensity.Mean? ==>
      r.avgIntensity.count == r.totalRecent > 0 && r.avgIntensity.sum == SumIntensity(Recent(cs, now))
    ensures cs == [] ==> r.daysFree == 0
    ensures cs != [] ==> r.daysFree == DaysSince(now, MaxDate(cs))
  {
    var recent := Recent(cs, now);
    assert recent == [] <==> forall i :: 0 <= i < |cs| ==> cs[i].date < Cutoff(now) by {
      if recent != [] { assert recent[0] in cs; }
    }
    var avg := if |recent| > 0 then Mean(SumIntensity(recent), |recent|) else NoRecent;
    var daysFree := if |cs| > 0 then DaysSince(now, MaxDate(cs)) else 0;
    Stats(|recent|, avg, |cs|, daysFree)
  }

  /** A record dated now or later (today's entry, a clock skew) means no free days. */
  lemma DaysFreeZeroWhenLatestNotPast(cs: seq<Crisis>, now: int, i: int)
    requires 0 <= i < |cs| && cs[i].date >= now
    ensures ComputeStats(cs, now).daysFree == 0
  {
    var last := MaxDate(cs);
    assert last >= now;
    assert DaysSince(now, last) == 0;
  }

  /** The empty store: `{ totalRecent: 0, avgIntensity: "0", totalHistory: 0, daysFree: 0 }`. */
  lemma EmptyStats(now: int)
    ensures ComputeStats([], now) == Stats(0, NoRecent, 0, 0)
  {
  }

  lemma ExampleRecent(a: Crisis, b: Crisis, c: Crisis, now: int)
    requires a.date == now - 40 * DAY && b.date == now - 25 * DAY && c.date == now - 5 * DAY
    ensures Recent([a, b, c], now) == [b, c]
  {
    assert [a, b, c][..2] == [a, b] && [a, b][..1] == [a] && [a][..0] == [];
    assert Recent([a], now) == [];
    assert Recent([a, b], now) == [b];
  }

  lemma ExampleLatest(a: Crisis, b: Crisis, c: Crisis, now: int)
    requires a.date == now - 40 * DAY && b.date == now - 25 * DAY && c.date == now - 5 * DAY
    ensures DaysSince(now, MaxDate([a, b, c])) == 5
  {
    assert MaxDate([a, b, c]) == now - 5 * DAY;
  }

  /** Records 40, 25 and 5 days old with intensities 4, 6 and 8: two are
      recent, with average 14 / 2 = 7.0, out of three in all. */
  lemma ThreeRecordExample(a: Crisis, b: Crisis, c: Crisis, now: int)
    requires a.date == now - 40 * DAY && a.intensity == 4
    requires b.date == now - 25 * DAY && b.intensity == 6
    requires c.date == now - 5 * DAY && c.intensity == 8
    ensures ComputeStats([a, b, c], now) == Stats(2, Mean(14, 2), 3, 5)
  {
    ExampleRecent(a, b, c, now);
    ExampleLatest(a, b, c, now);
    assert [b, c][..1] == [b] && [b][..0] == [];
    assert SumIntensity([b]) == 6;
    assert SumIntensity([b, c]) == 14;
  }

  // ---- clinical insights ----

  datatype Insights = Insights(topSymptom: string, topMedication: string, topLocalization: string)

  const NoSymptom := "Ninguno"
  const NoMedication := "No registrado"
  const DiffuseLocalization := "Difusa"

  /** A medication whose relief was rated 'Moderado' or 'Total'. */
  predicate Effective(m: MedicationEntry) {
    m.relief == Total || m.relief == Moderate
  }

  /** Every symptom tag of every record, in list order. */
  function SymptomTags(cs: seq<Crisis>): seq<string>
    decreases |cs|
  {
    if cs == [] then [] else SymptomTags(cs[..|cs| - 1]) + cs[|cs| - 1].symptoms
  }

  /** Every localization tag of every record, in list order. */
  function LocalizationTags(cs: seq<Crisis>): seq<string>
    decreases |cs|
  {
    if cs == [] then [] else LocalizationTags(cs[..|cs| - 1]) + cs[|cs| - 1].localization
  }

  /** The names of the effective medications of one record. */
  function EffectiveNames(ms: seq<MedicationEntry>): seq<string>
    decreases |ms|
  {
    if ms == [] then []
    else EffectiveNames(ms[..|ms| - 1]) + (if Effective(ms[|ms| - 1]) then [ms[|ms| - 1].name] else [])
  }

  /** The names of the effective medications of every record, in list order. */
  function EffectiveMedicationNames(cs: seq<Crisis>): seq<string>
    decreases |cs|
  {
    if cs == [] then []
    else EffectiveMedicationNames(cs[..|cs| - 1]) + EffectiveNames(cs[|cs| - 1].medications)
  }

  /** `counts` maps exactly the tags that occur to their number of occurrences. */
  ghost predicate IsTally(counts: map<string, nat>, tags: seq<string>) {
    forall k :: (k in counts <==> k in multiset(tags)) && (k in counts ==> counts[k] == multiset(tags)[k])
  }

  /** No tag occurs more often than `w`. */
  ghost predicate MostFrequent(w: string, tags: seq<string>) {
    w in multiset(tags) && forall k :: multiset(tags)[k] <= multiset(tags)[w]
  }

  /** `r` is what `Object.entries(counts).sort(...)[0]?.[0] || fallback` can
      give: the fallback when nothing was counted, otherwise a most frequent
      tag, with the fallback standing in for the empty tag (which is falsy). */
  ghost predicate IsTopTag(r: string, tags: seq<string>, fallback: string) {
    && (tags == [] ==> r == fallback)
    && (tags != [] ==>
          (r != "" && MostFrequent(r, tags)) || (r == fallback && MostFrequent("", tags)))
  }

  /** Counting one more occurrence of `t` keeps the tally exact. */
  lemma TallyBump(counts: map<string, nat>, seen: seq<string>, t: string)
    requires IsTally(counts, seen)
    ensures IsTally(counts[t := (if t in counts then counts[t] else 0) + 1], seen + [t])
  {
    assert multiset(seen + [t]) == multiset(seen) + multiset{t};
  }

  lemma EffectiveNamesStep(ms: seq<MedicationEntry>, j: int)
    requires 0 <= j < |ms|
    ensures EffectiveNames(ms[..j + 1]) ==
      EffectiveNames(ms[..j]) + (if Effective(ms[j]) then [ms[j].name] else [])
  {
    assert ms[..j + 1][..j] == ms[..j];
  }

  /** Adds one occurrence of each tag in `tags` to `counts` (one `forEach` of
      `getClinicalInsights`). */
  method CountTags(counts: map<string, nat>, tags: seq<string>, ghost seen: seq<string>)
    returns (r: map<string, nat>)
    requires IsTally(counts, seen)
    ensures IsTally(r, seen + tags)
  {
    r := counts;
    for j := 0 to |tags|
      invariant IsTally(r, seen + tags[..j])
    {
      var t := tags[j];
      assert seen + tags[..j + 1] == (seen + tags[..j]) + [t];
      TallyBump(r, seen + tags[..j], t);
      r := r[t := (if t in r then r[t] else 0) + 1];
    }
    assert tags[..|tags|] == tags;
  }

  /** One medication of the inner `forEach`: the tally stays exact whether or
      not its name is counted. */
  lemma CountEffectiveStep(r: map<string, nat>, seen: seq<string>, ms: seq<MedicationEntry>, j: int)
    requires 0 <= j < |ms|
    requires IsTally(r, seen + EffectiveNames(ms[..j]))
    ensures Effective(ms[j]) ==>
      IsTally(r[ms[j].name := (if ms[j].name in r then r[ms[j].name] else 0) + 1],
              seen + EffectiveNames(ms[..j + 1]))
    ensures !Effective(ms[j]) ==> IsTally(r, seen + EffectiveNames(ms[..j + 1]))
  {
    EffectiveNamesStep(ms, j);
    var acc := seen + EffectiveNames(ms[..j]);
    if Effective(ms[j]) {
      TallyBump(r, acc, ms[j].name);
      assert acc + [ms[j].name] == seen + EffectiveNames(ms[..j + 1]);
    } else {
      assert acc == seen + EffectiveNames(ms[..j + 1]);
    }
  }

  /** Adds one occurrence of the name of each effective medication in `ms`. */
  method CountEffective(counts: map<string, nat>, ms: seq<MedicationEntry>, ghost seen: seq<string>)
    returns (r: map<string, nat>)
    requires IsTally(counts, seen)
    ensures IsTally(r, seen + EffectiveNames(ms))
  {
    r := counts;
    for j := 0 to |ms|
      invariant IsTally(r, seen + EffectiveNames(ms[..j]))
    {
      var m := ms[j];
      CountEffectiveStep(r, seen, ms, j);
      if m.relief == Total || m.relief == Moderate {
        r := r[m.name := (if m.name in r then r[m.name] else 0) + 1];
      }
    }
    assert ms[..|ms|] == ms;
  }

  /** The tag with the highest count, or `fallback` (the sort-and-take-first
      of `getClinicalInsights`; which of several equally frequent tags wins is
      not fixed). */
  method TopTag(counts: map<string, nat>, ghost tags: seq<string>, fallback: string)
    returns (r: string)
    requires IsTally(counts, tags)
    ensures IsTopTag(r, tags, fallback)
  {
    var keys := counts.Keys;
    var best := "";
    var bestCount := 0;
    var found := false;
    while keys != {}
      invariant keys <= counts.Keys
      invariant found <==> keys != counts.Keys
      invariant found ==> best in counts && bestCount == counts[best]
      invariant forall k :: k in counts && k !in keys ==> counts[k] <= bestCount
      decreases keys
    {
      var k :| k in keys;
      if !found || counts[k] > bestCount {
        best, bestCount, found := k, counts[k], true;
      }
      keys := keys - {k};
    }
    if !found {
      assert counts.Keys == {};
      r := fallback;
    } else {
      assert forall k :: multiset(tags)[k] <= multiset(tags)[best] by {
        forall k ensures multiset(tags)[k] <= multiset(tags)[best] {
          if k in counts {
          } else {
            assert k !in multiset(tags);
          }
        }
      }
      assert tags != [] by {
        assert best in multiset(tags);
      }
      r := if best == "" then fallback else best;
    }
  }

  /** `getClinicalInsights` over the record list `cs`: `null` exactly when the
      list is empty, otherwise the most frequent symptom, effective
      medication and localization, each with its own fallback label. */
  method ClinicalInsights(cs: seq<Crisis>) returns (r: Option<Insights>)
    ensures r.None? <==> cs == []
    ensures r.Some? ==> IsTopTag(r.value.topSymptom, SymptomTags(cs), NoSymptom)
    ensures r.Some? ==> IsTopTag(r.value.topMedication, EffectiveMedicationNames(cs), NoMedication)
    ensures r.Some? ==> IsTopTag(r.value.topLocalization, LocalizationTags(cs), DiffuseLocalization)
  {
    if |cs| == 0 {
      return None;
    }
    var symptomCounts: map<string, nat> := map[];
    var medCounts: map<string, nat> := map[];
    var locCounts: map<string, nat> := map[];
    for i := 0 to |cs|
      invariant IsTally(symptomCounts, SymptomTags(cs[..i]))
      invariant IsTally(locCounts, LocalizationTags(cs[..i]))
      invariant IsTally(medCounts, EffectiveMedicationNames(cs[..i]))
    {
      var c := cs[i];
      assert cs[..i + 1][..i] == cs[..i];
      symptomCounts := CountTags(symptomCounts, c.symptoms, SymptomTags(cs[..i]));
      locCounts := CountTags(locCounts, c.localization, LocalizationTags(cs[..i]));
      medCounts := CountEffective(medCounts, c.medications, EffectiveMedicationNames(cs[..i]));
    }
    assert cs[..|cs|] == cs;
    var topSymptom := TopTag(symptomCounts, SymptomTags(cs), NoSymptom);
    var topMed := TopTag(medCounts, EffectiveMedicationNames(cs), NoMedication);
    var topLoc := TopTag(locCounts, LocalizationTags(cs), DiffuseLocalization);
    r := Some(Insights(topSymptom, topMed, topLoc));
  }
}
