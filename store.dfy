/** The client-side record store (storeService.ts): two caches, one for the
    list of records and one for the profile, mirrored in a key-value store
    under two fixed keys. The key-value store is a map from key to an
    already-parsed value; unparseable text is the value `Corrupt`. */
module Store {
  import opened Collections
  import opened Types
  import opened Analytics

  const STORAGE_KEY := "alivio_crises_v1"
  const PROFILE_KEY := "alivio_profile_v1"

  /** What a key of the key-value store holds, as `JSON.parse` would see it. */
  datatype Stored = CrisesJson(crises: seq<Crisis>) | ProfileJson(profile: UserProfile) | Corrupt

  /** The outcome of reading one key: absent, parsed, or a parse error. */
  datatype Read<T> = Missing | Parsed(value: T) | Unreadable

  /** The `version` field of a backup, with JavaScript truthiness. */
  datatype Version = NoVersion | VersionNumber(n: int) | VersionText(s: string)

  predicate Truthy(v: Version) {
    match v
    case NoVersion => false
    case VersionNumber(n) => n != 0
    case VersionText(s) => s != ""
  }

  /** A parsed backup object: `crises` is `None` when the field is not an
      array, `profile` is `None` when the field is falsy. */
  datatype Backup = Backup(
    version: Version, timestamp: int, profile: Option<UserProfile>, crises: Option<seq<Crisis>>)

  /** The text handed to `importData`, once `JSON.parse` has run on it. */
  datatype ImportText = Unparseable | Json(backup: Backup)

  /** The snapshot `exportData` builds: version 1, the time, the profile and the records. */
  function ExportBackup(crises: seq<Crisis>, profile: Option<UserProfile>, now: int): Backup {
    Backup(VersionNumber(1), now, profile, Some(crises))
  }

  /** The validation of `importData`: `None` when the import is refused,
      otherwise the records to install and the profile to install, if any. */
  function ValidateImport(text: ImportText): (r: Option<(seq<Crisis>, Option<UserProfile>)>)
    ensures r.None? <==> text.Unparseable? || !Truthy(text.backup.version) || text.backup.crises.None?
    ensures r.Some? ==> r.value.0 == text.backup.crises.value && r.value.1 == text.backup.profile
  {
    match text
    case Unparseable => None
    case Json(data) =>
      if !Truthy(data.version) || data.crises.None? then None
      else Some((data.crises.value, data.profile))
  }

  /** Whatever `exportData` produces, `importData` accepts, and it installs
      exactly the exported records and profile. */
  lemma ExportAccepted(crises: seq<Crisis>, profile: Option<UserProfile>, now: int)
    ensures ValidateImport(Json(ExportBackup(crises, profile, now))) == Some((crises, profile))
  {
  }

  /** `crises.map(c => c.id === id ? { ...c, ...updates } : c)` */
  function UpdateById(cs: seq<Crisis>, id: string, updates: CrisisPatch): (r: seq<Crisis>)
    ensures |r| == |cs|
    ensures forall i :: 0 <= i < |cs| && cs[i].id == id ==> r[i] == Merge(cs[i], updates)
    ensures forall i :: 0 <= i < |cs| && cs[i].id != id ==> r[i] == cs[i]
    decreases |cs|
  {
    if cs == [] then []
    else
      var last := cs[|cs| - 1];
      UpdateById(cs[..|cs| - 1], id, updates) + [if last.id == id then Merge(last, updates) else last]
  }

  /** Updating an identifier that no record carries changes nothing. */
  lemma UpdateUnknownId(cs: seq<Crisis>, id: string, updates: CrisisPatch)
    requires !HasId(cs, id)
    ensures UpdateById(cs, id, updates) == cs
  {
  }

  /** Updating with every field of a complete record replaces each record
      with that identifier by the new one, keeping the identifier, and
      leaves the others alone. */
  lemma UpdateWithCompleteRecord(cs: seq<Crisis>, id: string, d: Crisis)
    requires d.endTime.Some? && d.duration.Some? && d.isPeriod.Some?
    requires d.medicationName.Some? && d.medicationAmount.Some?
    ensures var r := UpdateById(cs, id, PatchWithoutId(d));
      |r| == |cs|
      && (forall i :: 0 <= i < |cs| && cs[i].id == id ==> r[i] == d.(id := id))
      && (forall i :: 0 <= i < |cs| && cs[i].id != id ==> r[i] == cs[i])
  {
    forall i | 0 <= i < |cs| && cs[i].id == id
      ensures UpdateById(cs, id, PatchWithoutId(d))[i] == d.(id := id)
    {
      MergeFullPatch(cs[i], d);
    }
  }

  /** `crises.filter(c => c.id !== id)` */
  function RemoveById(cs: seq<Crisis>, id: string): seq<Crisis> {
    Filter(cs, (c: Crisis) => c.id != id)
  }

  /** Deleting keeps exactly the records with another identifier, in their
      order, adds nothing, and is a no-op for an unknown identifier. */
  lemma RemoveByIdSpec(cs: seq<Crisis>, id: string)
    ensures !HasId(RemoveById(cs, id), id)
    ensures forall i :: 0 <= i < |cs| && cs[i].id != id ==> cs[i] in RemoveById(cs, id)
    ensures multiset(RemoveById(cs, id)) <= multiset(cs)
    ensures !HasId(cs, id) ==> RemoveById(cs, id) == cs
  {
    FilterSubMultiset(cs, (c: Crisis) => c.id != id);
    if !HasId(cs, id) {
      FilterKeepsAll(cs, (c: Crisis) => c.id != id);
    }
  }

  class RecordStore {
    /** `crisesCache`: `None` is the JavaScript `null` (not loaded). */
    var crisesCache: Option<seq<Crisis>>
    /** `profileCache`: `None` is `null`. */
    var profileCache: Option<UserProfile>
    /** The key-value store (`localStorage`). */
    var storage: map<string, Stored>

    /** What the crises key holds. */
    function StoredCrises(): Read<seq<Crisis>>
      reads this`storage
    {
      if STORAGE_KEY !in storage then Missing
      else match storage[STORAGE_KEY]
        case CrisesJson(l) => Parsed(l)
        case _ => Unreadable
    }

    /** What the profile key holds. */
    function StoredProfile(): Read<UserProfile>
      reads this`storage
    {
      if PROFILE_KEY !in storage then Missing
      else match storage[PROFILE_KEY]
        case ProfileJson(p) => Parsed(p)
        case _ => Unreadable
    }

    /** Each key holds a value of its own shape (or corrupt text), and a
        loaded cache agrees with the key-value store. */
    ghost predicate Valid()
      reads this
    {
      && (STORAGE_KEY in storage ==> !storage[STORAGE_KEY].ProfileJson?)
      && (PROFILE_KEY in storage ==> !storage[PROFILE_KEY].CrisesJson?)
      && (crisesCache.Some? ==>
            StoredCrises() == Parsed(crisesCache.value)
            || (StoredCrises() == Missing && crisesCache.value == []))
      && (profileCache.Some? ==> StoredProfile() == Parsed(profileCache.value))
    }

    /** The list `getCrises` returns in the current state. */
    ghost function Crises(): seq<Crisis>
      reads this`crisesCache, this`storage
    {
      if crisesCache.Some? then crisesCache.value
      else match StoredCrises()
        case Parsed(l) => l
        case _ => []
    }

    /** The profile `getProfile` returns in the current state. */
    ghost function Profile(): Option<UserProfile>
      reads this`profileCache, this`storage
    {
      if profileCache.Some? then profileCache
      else match StoredProfile()
        case Parsed(p) => Some(p)
        case _ => None
    }

    /** The module's state when the application starts: nothing cached. */
    constructor (initial: map<string, Stored>)
      requires STORAGE_KEY in initial ==> !initial[STORAGE_KEY].ProfileJson?
      requires PROFILE_KEY in initial ==> !initial[PROFILE_KEY].CrisesJson?
      ensures Valid()
      ensures crisesCache == None && profileCache == None && storage == initial
    {
      crisesCache := None;
      profileCache := None;
      storage := initial;
    }

    /** `getCrises`: the cache when loaded; otherwise the stored list, with a
        missing key read as `[]` (and cached) and unparseable text read as
        `[]` without loading the cache. */
    method GetCrises() returns (r: seq<Crisis>)
      requires Valid()
      modifies this`crisesCache
      ensures Valid()
      ensures r == old(Crises()) && Crises() == old(Crises())
      ensures old(crisesCache).Some? ==> crisesCache == old(crisesCache)
      ensures old(crisesCache).None? ==>
        crisesCache == match old(StoredCrises())
          case Missing => Some([])
          case Parsed(l) => Some(l)
          case Unreadable => None
    {
      if crisesCache.Some? {
        return crisesCache.value;
      }
      match StoredCrises()
      case Missing =>
        crisesCache := Some([]);
        r := [];
      case Parsed(l) =>
        crisesCache := Some(l);
        r := l;
      case Unreadable =>
        r := [];
    }

    /** `saveCrisis`: the draft with the fresh identifier, appended at the end. */
    method SaveCrisis(draft: Crisis, freshId: string) returns (created: Crisis)
      requires Valid()
      modifies this
      ensures Valid()
      ensures created == draft.(id := freshId)
      ensures Crises() == old(Crises()) + [created]
      ensures crisesCache == Some(Crises())
      ensures storage == old(storage)[STORAGE_KEY := CrisesJson(Crises())]
      ensures profileCache == old(profileCache)
      ensures UniqueIds(old(Crises())) && !HasId(old(Crises()), freshId) ==> UniqueIds(Crises())
    {
      var crises := GetCrises();
      created := draft.(id := freshId);
      var updated := crises + [created];
      crisesCache := Some(updated);
      storage := storage[STORAGE_KEY := CrisesJson(updated)];
    }

    /** `updateCrisis`: merges `updates` into every record with that identifier. */
    method UpdateCrisis(id: string, updates: CrisisPatch)
      requires Valid()
      modifies this
      ensures Valid()
      ensures Crises() == UpdateById(old(Crises()), id, updates)
      ensures crisesCache == Some(Crises())
      ensures storage == old(storage)[STORAGE_KEY := CrisesJson(Crises())]
      ensures profileCache == old(profileCache)
    {
      var crises := GetCrises();
      var updated := UpdateById(crises, id, updates);
      crisesCache := Some(updated);
      storage := storage[STORAGE_KEY := CrisesJson(updated)];
    }

    /** `deleteCrisis`: keeps the records with another identifier. */
    method DeleteCrisis(id: string)
      requires Valid()
      modifies this
      ensures Valid()
      ensures Crises() == RemoveById(old(Crises()), id)
      ensures crisesCache == Some(Crises())
      ensures storage == old(storage)[STORAGE_KEY := CrisesJson(Crises())]
      ensures profileCache == old(profileCache)
    {
      var crises := GetCrises();
      var updated := RemoveById(crises, id);
      crisesCache := Some(updated);
      storage := storage[STORAGE_KEY := CrisesJson(updated)];
    }

    /** `getProfile`: the cache when set; otherwise the stored profile, with
        a missing key or unparseable text read as `null`. */
    method GetProfile() returns (r: Option<UserProfile>)
      requires Valid()
      modifies this`profileCache
      ensures Valid()
      ensures r == old(Profile()) && Profile() == old(Profile())
      ensures old(profileCache).Some? ==> profileCache == old(profileCache)
      ensures old(profileCache).None? ==>
        profileCache == match old(StoredProfile())
          case Parsed(p) => Some(p)
          case _ => None
    {
      if profileCache.Some? {
        return profileCache;
      }
      match StoredProfile()
      case Missing =>
        profileCache := None;
        r := None;
      case Parsed(p) =>
        profileCache := Some(p);
        r := Some(p);
      case Unreadable =>
        r := None;
    }

    /** `saveProfile`: wholesale replacement, cached and stored. */
    method SaveProfile(profile: UserProfile)
      requires Valid()
      modifies this
      ensures Valid()
      ensures Profile() == Some(profile)
      ensures profileCache == Some(profile)
      ensures storage == old(storage)[PROFILE_KEY := ProfileJson(profile)]
      ensures crisesCache == old(crisesCache) && Crises() == old(Crises())
    {
      profileCache := Some(profile);
      storage := storage[PROFILE_KEY := ProfileJson(profile)];
    }

    /** `clearAllData`: both caches unset and both keys removed. */
    method ClearAllData()
      requires Valid()
      modifies this
      ensures Valid()
      ensures crisesCache == None && profileCache == None
      ensures storage == old(storage) - {STORAGE_KEY, PROFILE_KEY}
      ensures Crises() == [] && Profile() == None
    {
      crisesCache := None;
      profileCache := None;
      storage := storage - {STORAGE_KEY, PROFILE_KEY};
    }

    /** `getStats` at time `now`. */
    method GetStats(now: int) returns (s: Stats)
      requires Valid()
      modifies this`crisesCache
      ensures Valid()
      ensures s == ComputeStats(old(Crises()), now) && Crises() == old(Crises())
    {
      var crises := GetCrises();
      s := ComputeStats(crises, now);
    }

    /** `getClinicalInsights`. */
    method GetClinicalInsights() returns (r: Option<Insights>)
      requires Valid()
      modifies this`crisesCache
      ensures Valid()
      ensures Crises() == old(Crises())
      ensures r.None? <==> old(Crises()) == []
      ensures r.Some? ==> IsTopTag(r.value.topSymptom, SymptomTags(old(Crises())), NoSymptom)
      ensures r.Some? ==> IsTopTag(r.value.topMedication, EffectiveMedicationNames(old(Crises())), NoMedication)
      ensures r.Some? ==> IsTopTag(r.value.topLocalization, LocalizationTags(old(Crises())), DiffuseLocalization)
    {
      var crises := GetCrises();
      r := ClinicalInsights(crises);
    }

    /** `exportData` at time `now`. */
    method ExportData(now: int) returns (b: Backup)
      requires Valid()
      modifies this`crisesCache, this`profileCache
      ensures Valid()
      ensures b == ExportBackup(old(Crises()), old(Profile()), now)
      ensures Crises() == old(Crises()) && Profile() == old(Profile())
    {
      var crises := GetCrises();
      var profile := GetProfile();
      b := ExportBackup(crises, profile, now);
    }

    /** `importData`: a refused backup changes nothing; an accepted one
        replaces the records wholesale and the profile only when present. */
    method ImportData(text: ImportText) returns (ok: bool)
      requires Valid()
      modifies this
      ensures Valid()
      ensures ok <==> ValidateImport(text).Some?
      ensures !ok ==>
        crisesCache == old(crisesCache) && profileCache == old(profileCache) && storage == old(storage)
      ensures ok ==> Crises() == text.backup.crises.value && crisesCache == Some(Crises())
      ensures ok ==> Profile() == if text.backup.profile.Some? then text.backup.profile else old(Profile())
      ensures ok && text.backup.profile.None? ==>
        storage == old(storage)[STORAGE_KEY := CrisesJson(Crises())]
      ensures ok && text.backup.profile.Some? ==>
        storage == old(storage)[STORAGE_KEY := CrisesJson(Crises())][PROFILE_KEY := ProfileJson(text.backup.profile.value)]
    {
      if text.Unparseable? {
        return false;
      }
      var data := text.backup;
      if !Truthy(data.version) || data.crises.None? {
        return false;
      }
      crisesCache := data.crises;
      storage := storage[STORAGE_KEY := CrisesJson(data.crises.value)];
      if data.profile.Some? {
        profileCache := data.profile;
        storage := storage[PROFILE_KEY := ProfileJson(data.profile.value)];
      }
      ok := true;
    }
  }

  /** Exporting and importing the export restores the same records and profile. */
  method ExportImportRoundTrip(store: RecordStore, now: int) returns (ok: bool)
    requires store.Valid()
    modifies store
    ensures store.Valid()
    ensures ok && store.Crises() == old(store.Crises()) && store.Profile() == old(store.Profile())
  {
    var backup := store.ExportData(now);
    ok := store.ImportData(Json(backup));
  }

  /** A saved profile is what the next `getProfile` returns; after
      `clearAllData` there are no records and no profile. */
  method SaveThenClear(store: RecordStore, profile: UserProfile) returns (seen: Option<UserProfile>, after: Option<UserProfile>, records: seq<Crisis>)
    requires store.Valid()
    modifies store
    ensures seen == Some(profile) && after == None && records == []
    ensures STORAGE_KEY !in store.storage && PROFILE_KEY !in store.storage
  {
    store.SaveProfile(profile);
    seen := store.GetProfile();
    store.ClearAllData();
    after := store.GetProfile();
    records := store.GetCrises();
  }
}
