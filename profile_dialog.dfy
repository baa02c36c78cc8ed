/**
 * The "My Profile" dialog: a copy of the profile loaded once when the
 * dialog is created, edited one field at a time while in edit mode, and
 * written back to storage on save.
 */
module ProfileDialog {
  import opened Wrappers
  import opened Storage
  import opened Profiles
  import Initials
  import Text

  /** The fields with an input box (the avatar has none). */
  datatype Field = Name | Email | Phone | Location | DateOfBirth | Bio

  function FieldValue(p: Profile, f: Field): string
  {
    match f
    case Name => p.name
    case Email => p.email
    case Phone => p.phone
    case Location => p.location
    case DateOfBirth => p.dateOfBirth
    case Bio => p.bio
  }

  /** handleChange: field `f` becomes `v`; every other field, the avatar included, is kept. */
  function Changed(p: Profile, f: Field, v: string): (r: Profile)
    ensures FieldValue(r, f) == v
    ensures forall g :: g != f ==> FieldValue(r, g) == FieldValue(p, g)
    ensures r.avatar == p.avatar
  {
    match f
    case Name => p.(name := v)
    case Email => p.(email := v)
    case Phone => p.(phone := v)
    case Location => p.(location := v)
    case DateOfBirth => p.(dateOfBirth := v)
    case Bio => p.(bio := v)
  }

  lemma SameFieldsSameProfile(a: Profile, b: Profile)
    requires forall f :: FieldValue(a, f) == FieldValue(b, f)
    requires a.avatar == b.avatar
    ensures a == b
  {
    assert FieldValue(a, Name) == FieldValue(b, Name);
    assert FieldValue(a, Email) == FieldValue(b, Email);
    assert FieldValue(a, Phone) == FieldValue(b, Phone);
    assert FieldValue(a, Location) == FieldValue(b, Location);
    assert FieldValue(a, DateOfBirth) == FieldValue(b, DateOfBirth);
    assert FieldValue(a, Bio) == FieldValue(b, Bio);
  }

  /** Typing a field's old value back restores the profile. */
  lemma ChangeBack(p: Profile, f: Field, v: string)
    ensures Changed(Changed(p, f, v), f, FieldValue(p, f)) == p
  {
    SameFieldsSameProfile(Changed(Changed(p, f, v), f, FieldValue(p, f)), p);
  }

  /** Only the last edit of a field counts. */
  lemma ChangeTwice(p: Profile, f: Field, v: string, w: string)
    ensures Changed(Changed(p, f, v), f, w) == Changed(p, f, w)
  {
    SameFieldsSameProfile(Changed(Changed(p, f, v), f, w), Changed(p, f, w));
  }

  datatype LoadError = MalformedProfile

  /**
   * The initial profile: the stored one when a non-empty text is stored,
   * the default John Doe record otherwise. Malformed stored text is not
   * caught here: loading fails.
   */
  function InitialProfile(items: Items): (r: Result<Profile, LoadError>)
    ensures Get(items, ProfileKey).None? ==> r == Ok(DefaultProfile)
    ensures Get(items, ProfileKey) == Some("") ==> r == Ok(DefaultProfile)
    ensures forall p :: Get(items, ProfileKey) == Some(Encode(p)) ==> r == Ok(p)
    ensures r.Err? <==> ProfileKey in items && items[ProfileKey] != "" && Decode(items[ProfileKey]).None?
  {
    Profiles.DecodeEncodeAll();
    match Get(items, ProfileKey)
    case None => Ok(DefaultProfile)
    case Some(saved) =>
      if saved == "" then Ok(DefaultProfile)
      else match Decode(saved)
        case Some(p) => Ok(p)
        case None => Err(MalformedProfile)
  }

  class ProfileModal {
    var profile: Profile
    var isEditing: bool

    /** Created with the navigation bar; requires a profile that loads. */
    constructor (store: LocalStorage)
      requires InitialProfile(store.items).Ok?
      ensures profile == InitialProfile(store.items).value && !isEditing
    {
      profile := InitialProfile(store.items).value;
      isEditing := false;
    }

    /** An input's onChange; the inputs are disabled outside edit mode. */
    method HandleChange(f: Field, v: string)
      requires isEditing
      modifies this`profile
      ensures profile == Changed(old(profile), f, v)
    {
      profile := Changed(profile, f, v);
    }

    /** handleSave: writes the current profile and leaves edit mode. */
    method HandleSave(store: LocalStorage)
      requires isEditing
      modifies this`isEditing, store
      ensures !isEditing
      ensures store.items == Set(old(store.items), ProfileKey, Encode(profile))
      ensures InitialProfile(store.items) == Ok(profile)
    {
      store.SetItem(ProfileKey, Encode(profile));
      isEditing := false;
    }

    /** The Edit Profile / Cancel button beside the name. */
    method ToggleEdit()
      modifies this`isEditing
      ensures isEditing == !old(isEditing)
    {
      isEditing := !isEditing;
    }

    /** The Cancel button under the form, shown in edit mode: leaves edit mode; the edits stay. */
    method Cancel()
      requires isEditing
      modifies this`isEditing
      ensures !isEditing
    {
      isEditing := false;
    }

    /** The avatar fallback: the initials of the profile's name, "JD" for the default profile. */
    function AvatarInitials(): (r: string)
      reads this
      ensures r == Text.ToUpper(Initials.WordStarts(profile.name, true))
      ensures profile.name == DefaultProfile.name ==> r == "JD"
    {
      Initials.DefaultNameInitials();
      Initials.Initials(profile.name)
    }
  }
}
