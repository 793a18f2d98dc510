/** The record shapes of the application (types.ts). Dates and the profile's
    join date are integer millisecond timestamps; the JavaScript code keeps
    them as ISO-8601 strings, and parsing them is not part of this model. */
module Types {
  import opened Collections

  /** 'Migraña' | 'Dolor' | 'Medicina' | 'Periodo' | 'Descanso' */
  datatype EntryType = Migraine | Pain | Medication | Period | Rest

  /** 'Nada' | 'Limitado' | 'Postración' */
  datatype FunctionalImpact = NoImpact | Limited | Prostration

  /** 'Ninguno' | 'Moderado' | 'Total' */
  datatype Relief = NoRelief | Moderate | Total

  datatype MedicationEntry = MedicationEntry(
    id: string, name: string, dose: string, time: string, relief: Relief)

  datatype UserProfile = UserProfile(
    name: string, age: Option<int>, migraineType: string,
    joinedDate: int, avatar: Option<string>)

  /** One logged episode. The fields marked optional in the source are `Option`s. */
  datatype Crisis = Crisis(
    id: string,
    date: int,
    kind: EntryType,
    startTime: string,
    endTime: Option<string>,
    duration: Option<string>,
    intensity: int,
    localization: seq<string>,
    painQuality: seq<string>,
    symptoms: seq<string>,
    medications: seq<MedicationEntry>,
    functionalImpact: FunctionalImpact,
    notes: string,
    isPeriod: Option<bool>,
    medicationName: Option<string>,
    medicationAmount: Option<string>)

  /** A `Partial<Crisis>`: a field that is `Some` is overwritten by a merge. */
  datatype CrisisPatch = CrisisPatch(
    id: Option<string>,
    date: Option<int>,
    kind: Option<EntryType>,
    startTime: Option<string>,
    endTime: Option<string>,
    duration: Option<string>,
    intensity: Option<int>,
    localization: Option<seq<string>>,
    painQuality: Option<seq<string>>,
    symptoms: Option<seq<string>>,
    medications: Option<seq<MedicationEntry>>,
    functionalImpact: Option<FunctionalImpact>,
    notes: Option<string>,
    isPeriod: Option<bool>,
    medicationName: Option<string>,
    medicationAmount: Option<string>)

  function Pick<T>(patched: Option<T>, current: T): T {
    if patched.Some? then patched.value else current
  }

  function PickOptional<T>(patched: Option<T>, current: Option<T>): Option<T> {
    if patched.Some? then patched else current
  }

  /** The object spread `{ ...c, ...updates }`: every field the patch carries
      wins, every other field keeps its value. */
  function Merge(c: Crisis, u: CrisisPatch): Crisis {
    Crisis(
      Pick(u.id, c.id), Pick(u.date, c.date), Pick(u.kind, c.kind),
      Pick(u.startTime, c.startTime), PickOptional(u.endTime, c.endTime),
      PickOptional(u.duration, c.duration), Pick(u.intensity, c.intensity),
      Pick(u.localization, c.localization), Pick(u.painQuality, c.painQuality),
      Pick(u.symptoms, c.symptoms), Pick(u.medications, c.medications),
      Pick(u.functionalImpact, c.functionalImpact), Pick(u.notes, c.notes),
      PickOptional(u.isPeriod, c.isPeriod),
      PickOptional(u.medicationName, c.medicationName),
      PickOptional(u.medicationAmount, c.medicationAmount))
  }

  /** The patch that carries every field of `d` except its id: what the
      editor passes to `updateCrisis` (an `Omit<Crisis, 'id'>`). */
  function PatchWithoutId(d: Crisis): CrisisPatch {
    CrisisPatch(
      None, Some(d.date), Some(d.kind), Some(d.startTime), d.endTime, d.duration,
      Some(d.intensity), Some(d.localization), Some(d.painQuality), Some(d.symptoms),
      Some(d.medications), Some(d.functionalImpact), Some(d.notes), d.isPeriod,
      d.medicationName, d.medicationAmount)
  }

  const EmptyPatch := CrisisPatch(
    None, None, None, None, None, None, None, None, None, None, None, None, None,
    None, None, None)

  /** Merging the empty patch changes nothing. */
  lemma MergeEmpty(c: Crisis)
    ensures Merge(c, EmptyPatch) == c
  {
  }

  /** Merging is idempotent: applying the same patch twice is applying it once. */
  lemma MergeIdempotent(c: Crisis, u: CrisisPatch)
    ensures Merge(Merge(c, u), u) == Merge(c, u)
  {
  }

  /** A patch built from a complete record whose optional fields are all set
      replaces every field but the id. */
  lemma MergeFullPatch(c: Crisis, d: Crisis)
    requires d.endTime.Some? && d.duration.Some? && d.isPeriod.Some?
    requires d.medicationName.Some? && d.medicationAmount.Some?
    ensures Merge(c, PatchWithoutId(d)) == d.(id := c.id)
  {
  }

  /** Whether some record carries the identifier `id`. */
  predicate HasId(cs: seq<Crisis>, id: string) {
    exists i :: 0 <= i < |cs| && cs[i].id == id
  }

  /** No two records share an identifier (the data-model invariant). */
  predicate UniqueIds(cs: seq<Crisis>) {
    forall i, j :: 0 <= i < j < |cs| ==> cs[i].id != cs[j].id
  }
}
