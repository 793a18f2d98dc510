/** The onboarding screen: the user types a name, picks a migraine type and
    an avatar, and "Comenzar Experiencia" saves the profile and opens the
    home screen. */
module Onboarding {
  import opened Collections
  import opened Types
  import opened Text
  import Store

  /** One choice of the migraine-type picker: its key and its display title. */
  datatype MigraineType = MigraineType(id: string, title: string)

  /** `MIGRAINE_TYPES` (descriptions and icons left out). */
  const MigraineTypes: seq<MigraineType> := [
    MigraineType("Sin Aura", "Migraña Común"),
    MigraineType("Con Aura", "Con Aura"),
    MigraineType("Crónica", "Crónica")
  ]

  /** The `url` of each entry of `AVATARS`, in order. */
  const AvatarUrls: seq<string> := [
    "https://api.dicebear.com/9.x/avataaars-neutral/svg?seed=Molly&backgroundColor=ffffff&backgroundType=gradientLinear&clothingColor=e1caaa",
    "https://api.dicebear.com/9.x/avataaars-neutral/svg?seed=Felix&backgroundColor=e3f2fd&clothingColor=90caf9",
    "https://api.dicebear.com/9.x/avataaars-neutral/svg?seed=Aneka&backgroundColor=e8f5e9&clothingColor=a5d6a7",
    "https://api.dicebear.com/9.x/avataaars-neutral/svg?seed=Aiden&backgroundColor=fff8e1&clothingColor=ffe082"
  ]

  const DefaultType := "Sin Aura"
  const UndefinedType := "No definido"

  /** `types.find(t => t.id === id)`: the first entry with that id. */
  function FindType(types: seq<MigraineType>, id: string): (r: Option<MigraineType>)
    ensures r.None? <==> forall i :: 0 <= i < |types| ==> types[i].id != id
    ensures r.Some? ==>
      exists i :: 0 <= i < |types| && types[i] == r.value && r.value.id == id
                  && forall j :: 0 <= j < i ==> types[j].id != id
    decreases |types|
  {
    if types == [] then None
    else if types[0].id == id then Some(types[0])
    else
      var r := FindType(types[1..], id);
      assert forall i :: 1 <= i < |types| ==> types[i] == types[1..][i - 1];
      r
  }

  /** `typeObj?.title || 'No definido'`: the title of the chosen type, with
      the fallback for an unknown id or an empty title. */
  function TypeTitle(types: seq<MigraineType>, selected: string): string {
    match FindType(types, selected)
    case Some(t) => if t.title == "" then UndefinedType else t.title
    case None => UndefinedType
  }

  /** A listed id gives the title of its first entry. */
  lemma ListedTypeTitle(types: seq<MigraineType>, i: int)
    requires 0 <= i < |types| && types[i].title != ""
    requires forall j :: 0 <= j < i ==> types[j].id != types[i].id
    ensures TypeTitle(types, types[i].id) == types[i].title
  {
    var r := FindType(types, types[i].id);
    var k :| 0 <= k < |types| && types[k] == r.value && r.value.id == types[i].id
             && forall j :: 0 <= j < k ==> types[j].id != types[i].id;
    assert k == i;
  }

  /** An id that no entry has gives 'No definido'. */
  lemma UnlistedTypeTitle(types: seq<MigraineType>, selected: string)
    requires forall i :: 0 <= i < |types| ==> types[i].id != selected
    ensures TypeTitle(types, selected) == UndefinedType
  {
  }

  /** The three ids of the picker name their own titles. */
  lemma PickerTitles()
    ensures TypeTitle(MigraineTypes, DefaultType) == "Migraña Común"
    ensures TypeTitle(MigraineTypes, "Con Aura") == "Con Aura"
    ensures TypeTitle(MigraineTypes, "Crónica") == "Crónica"
  {
    ListedTypeTitle(MigraineTypes, 0);
    ListedTypeTitle(MigraineTypes, 1);
    ListedTypeTitle(MigraineTypes, 2);
  }

  /** The profile `handleStart` saves: the name exactly as typed (not
      trimmed), the title of the chosen type, the start time and the avatar. */
  function NewProfile(name: string, selectedType: string, avatar: string, now: int): UserProfile {
    UserProfile(name, None, TypeTitle(MigraineTypes, selectedType), now, Some(avatar))
  }

  /** The form state of the screen. */
  class OnboardingForm {
    var name: string
    var selectedType: string
    var selectedAvatar: string

    constructor ()
      ensures name == "" && selectedType == DefaultType && selectedAvatar == AvatarUrls[0]
      ensures !CanStart()
    {
      name := "";
      selectedType := DefaultType;
      selectedAvatar := AvatarUrls[0];
    }

    /** The start button is enabled (`disabled={!name.trim()}`). */
    predicate CanStart()
      reads this`name
    {
      Trim(name) != ""
    }

    method SetName(s: string)
      modifies this`name
      ensures name == s
      ensures CanStart() <==> !Blank(s)
    {
      name := s;
      TrimEmptyIffBlank(s);
    }

    method SelectType(id: string)
      modifies this`selectedType
      ensures selectedType == id
    {
      selectedType := id;
    }

    /** Picking one of the avatars, or an uploaded picture as a data URL. */
    method SelectAvatar(url: string)
      modifies this`selectedAvatar
      ensures selectedAvatar == url
    {
      selectedAvatar := url;
    }

    /** `handleStart`: a blank name saves nothing and stays on the screen;
        otherwise the profile is saved and the app moves to the home screen.
        The guard is the same test that enables the button. */
    method Start(store: Store.RecordStore, now: int) returns (navigated: bool)
      requires store.Valid()
      modifies store
      ensures store.Valid()
      ensures navigated <==> CanStart()
      ensures navigated <==> !Blank(name)
      ensures !navigated ==>
        store.storage == old(store.storage) && store.profileCache == old(store.profileCache)
        && store.crisesCache == old(store.crisesCache)
      ensures navigated ==>
        && store.Profile() == Some(NewProfile(name, selectedType, selectedAvatar, now))
        && store.Crises() == old(store.Crises())
    {
      TrimEmptyIffBlank(name);
      if Trim(name) == "" {
        return false;
      }
      store.SaveProfile(NewProfile(name, selectedType, selectedAvatar, now));
      navigated := true;
    }
  }

  /** After a successful start the home screen finds a profile whose name is
      not blank, so it does not send the user back here. */
  lemma StartedProfileNotBlank(name: string, selectedType: string, avatar: string, now: int)
    requires !Blank(name)
    ensures Trim(NewProfile(name, selectedType, avatar, now).name) != ""
    ensures NewProfile(name, selectedType, avatar, now).migraineType != ""
  {
    TrimEmptyIffBlank(name);
  }
}
