/** The farm profile form: editing one text field, toggling crops, taking a new profile
    from the parent, uploading a photo and saving. Every edit clears the "saved" mark. */
module FarmProfile {
  import opened Wrappers
  import opened Lists
  import opened Domain

  /** The form's working copy of the profile and whether it was just saved. */
  datatype FormState = FormState(data: UserProfile, saved: bool)

  /** The text fields the form edits one at a time. */
  datatype Field = Name | Location | FarmSize | SoilType | WaterSource

  /** The value a field holds; an absent water source reads as empty. */
  function FieldValue(p: UserProfile, f: Field): string
  {
    match f
    case Name => p.name
    case Location => p.location
    case FarmSize => p.farmSize
    case SoilType => p.soilType
    case WaterSource => p.waterSource.GetOr("")
  }

  /** Sets one field of the working copy and clears the saved mark. */
  function HandleChange(st: FormState, f: Field, value: string): (r: FormState)
    ensures !r.saved
    ensures FieldValue(r.data, f) == value
    ensures forall g :: g != f ==> FieldValue(r.data, g) == FieldValue(st.data, g)
    ensures r.data.id == st.data.id && r.data.email == st.data.email && r.data.password == st.data.password
    ensures r.data.crops == st.data.crops && r.data.profileImage == st.data.profileImage
  {
    var d := st.data;
    var d' := match f
      case Name => d.(name := value)
      case Location => d.(location := value)
      case FarmSize => d.(farmSize := value)
      case SoilType => d.(soilType := value)
      case WaterSource => d.(waterSource := Some(value));
    FormState(d', false)
  }

  /** Changing a field back to the value it held restores every field. */
  lemma ChangeBackRestoresFields(st: FormState, f: Field, value: string)
    ensures var back := HandleChange(HandleChange(st, f, value), f, FieldValue(st.data, f));
      forall g :: FieldValue(back.data, g) == FieldValue(st.data, g)
  {
  }

  /** Adds an absent crop at the end or removes a present one, and clears the saved mark;
      the other fields are untouched. */
  function ToggleCrop(st: FormState, crop: string): (r: FormState)
    ensures !r.saved
    ensures crop !in st.data.crops ==> r.data.crops == st.data.crops + [crop]
    ensures crop in st.data.crops ==> crop !in r.data.crops
    ensures forall c :: c != crop ==> (c in r.data.crops <==> c in st.data.crops)
    ensures r.data == st.data.(crops := r.data.crops)
  {
    FormState(st.data.(crops := Toggle(st.data.crops, crop)), false)
  }

  /** Toggling a crop twice from absent gives back the same crop list; a crop listed once
      is removed with the others keeping their order. */
  lemma ToggleCropProperties(st: FormState, crop: string, k: nat)
    ensures crop !in st.data.crops ==> ToggleCrop(ToggleCrop(st, crop), crop).data == st.data
    ensures k < |st.data.crops| && st.data.crops[k] == crop
            && (forall i :: 0 <= i < |st.data.crops| && i != k ==> st.data.crops[i] != crop)
      ==> ToggleCrop(st, crop).data.crops == st.data.crops[..k] + st.data.crops[k + 1..]
  {
    if crop !in st.data.crops {
      ToggleTwice(st.data.crops, crop);
    }
    if k < |st.data.crops| && st.data.crops[k] == crop
       && (forall i :: 0 <= i < |st.data.crops| && i != k ==> st.data.crops[i] != crop) {
      ToggleRemovesOne(st.data.crops, crop, k);
    }
  }

  /** A new profile from the parent replaces the working copy. */
  function SyncProfile(st: FormState, profile: UserProfile): (r: FormState)
    ensures r.data == profile && r.saved == st.saved
  {
    st.(data := profile)
  }

  /** A sync discards edits made before it, a second sync of the same profile changes
      nothing, and saving right after a sync hands the parent its own profile back. */
  lemma SyncOverridesEdits(st: FormState, f: Field, value: string, profile: UserProfile)
    ensures SyncProfile(HandleChange(st, f, value), profile).data == SyncProfile(st, profile).data
    ensures SyncProfile(SyncProfile(st, profile), profile) == SyncProfile(st, profile)
    ensures Submit(SyncProfile(st, profile)).0 == profile
  {
  }

  /** A resized photo replaces the profile image and clears the saved mark. */
  function PhotoUploaded(st: FormState, image: string): (r: FormState)
    ensures r == FormState(st.data.(profileImage := Some(image)), false)
  {
    FormState(st.data.(profileImage := Some(image)), false)
  }

  /** Uploading a photo and then saving hands the parent the working copy with only the
      image changed: every text field and the crop list are as before, and the form shows
      the saved mark. */
  lemma PhotoThenSubmit(st: FormState, image: string)
    ensures var (saved, after) := Submit(PhotoUploaded(st, image));
      saved.profileImage == Some(image)
      && (forall g :: FieldValue(saved, g) == FieldValue(st.data, g))
      && saved.crops == st.data.crops && saved.id == st.data.id && saved.email == st.data.email
      && saved.password == st.data.password
      && after.saved && after.data == saved
  {
  }

  /** Saving hands the working copy to the parent and sets the saved mark. */
  function Submit(st: FormState): (r: (UserProfile, FormState))
    ensures r.0 == st.data && r.1 == st.(saved := true)
  {
    (st.data, st.(saved := true))
  }

  /** Saving after an edit hands the parent the edited value; any edit after a save clears
      the saved mark again, and saving twice hands the same profile both times. */
  lemma SubmitAfterEdits(st: FormState, f: Field, value: string, crop: string, image: string)
    ensures FieldValue(Submit(HandleChange(st, f, value)).0, f) == value
    ensures Submit(st).1.saved
    ensures !HandleChange(Submit(st).1, f, value).saved
    ensures !ToggleCrop(Submit(st).1, crop).saved
    ensures !PhotoUploaded(Submit(st).1, image).saved
    ensures Submit(Submit(st).1).0 == Submit(st).0
  {
  }
}
