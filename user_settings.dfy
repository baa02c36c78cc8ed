/**
 * The settings panel: a record of switches, two drop-down choices and a
 * font-size slider, edited one field at a time and saved whole under the
 * storage key "userSettings".
 */
module UserSettings {
  import opened Wrappers
  import opened Storage
  import Codec

  const SettingsKey := "userSettings"

  datatype SettingsRecord = SettingsRecord(
    notifications: bool,
    emailNotifications: bool,
    soundEffects: bool,
    autoplay: bool,
    videoQuality: string,
    language: string,
    fontSize: nat,
    animations: bool,
    dataUsage: bool)

  const Defaults := SettingsRecord(true, true, true, false, "HD", "English", 16, true, false)

  const VideoQualities: seq<string> := ["SD", "HD", "Full HD", "Auto"]
  const Languages: seq<string> := ["English", "Hindi", "Spanish"]
  const MinFontSize := 12
  const MaxFontSize := 20

  /** The values the panel's own controls can produce. */
  predicate WellFormed(s: SettingsRecord)
  {
    && MinFontSize <= s.fontSize <= MaxFontSize
    && s.videoQuality in VideoQualities
    && s.language in Languages
  }

  /** The keys with an on/off switch. */
  datatype Switch = Notifications | EmailNotifications | SoundEffects | Autoplay | Animations | DataUsage

  function SwitchValue(s: SettingsRecord, k: Switch): bool
  {
    match k
    case Notifications => s.notifications
    case EmailNotifications => s.emailNotifications
    case SoundEffects => s.soundEffects
    case Autoplay => s.autoplay
    case Animations => s.animations
    case DataUsage => s.dataUsage
  }

  /** handleToggle: switch `k` flips; every other field keeps its value. */
  function Toggled(s: SettingsRecord, k: Switch): (r: SettingsRecord)
    ensures SwitchValue(r, k) == !SwitchValue(s, k)
    ensures forall j :: j != k ==> SwitchValue(r, j) == SwitchValue(s, j)
    ensures r.videoQuality == s.videoQuality && r.language == s.language && r.fontSize == s.fontSize
  {
    match k
    case Notifications => s.(notifications := !s.notifications)
    case EmailNotifications => s.(emailNotifications := !s.emailNotifications)
    case SoundEffects => s.(soundEffects := !s.soundEffects)
    case Autoplay => s.(autoplay := !s.autoplay)
    case Animations => s.(animations := !s.animations)
    case DataUsage => s.(dataUsage := !s.dataUsage)
  }

  /** A record is fixed by its switches and its three other fields. */
  lemma SameFieldsSameRecord(a: SettingsRecord, b: SettingsRecord)
    requires forall k :: SwitchValue(a, k) == SwitchValue(b, k)
    requires a.videoQuality == b.videoQuality && a.language == b.language && a.fontSize == b.fontSize
    ensures a == b
  {
    assert SwitchValue(a, Notifications) == SwitchValue(b, Notifications);
    assert SwitchValue(a, EmailNotifications) == SwitchValue(b, EmailNotifications);
    assert SwitchValue(a, SoundEffects) == SwitchValue(b, SoundEffects);
    assert SwitchValue(a, Autoplay) == SwitchValue(b, Autoplay);
    assert SwitchValue(a, Animations) == SwitchValue(b, Animations);
    assert SwitchValue(a, DataUsage) == SwitchValue(b, DataUsage);
  }

  /** Toggling the same switch twice restores the record. */
  lemma ToggleTwice(s: SettingsRecord, k: Switch)
    ensures Toggled(Toggled(s, k), k) == s
  {
    SameFieldsSameRecord(Toggled(Toggled(s, k), k), s);
  }

  /** Toggles of different switches do not interfere: their order does not matter. */
  lemma TogglesCommute(s: SettingsRecord, j: Switch, k: Switch)
    ensures Toggled(Toggled(s, j), k) == Toggled(Toggled(s, k), j)
  {
    SameFieldsSameRecord(Toggled(Toggled(s, j), k), Toggled(Toggled(s, k), j));
  }

  /** JSON.stringify of the record, field by field in declaration order. */
  function Encode(s: SettingsRecord): string
  {
    Codec.EncodeFields(Fields(s))
  }

  function Fields(s: SettingsRecord): seq<string>
  {
    [Codec.BoolText(s.notifications), Codec.BoolText(s.emailNotifications), Codec.BoolText(s.soundEffects),
     Codec.BoolText(s.autoplay), s.videoQuality, s.language, Codec.Decimal(s.fontSize),
     Codec.BoolText(s.animations), Codec.BoolText(s.dataUsage)]
  }

  /** Reading a stored settings text back. */
  function Decode(text: string): Option<SettingsRecord>
  {
    match Codec.DecodeFields(text)
    case None => None
    case Some(fs) =>
      if |fs| != 9 then None
      else
        match (Codec.ParseBool(fs[0]), Codec.ParseBool(fs[1]), Codec.ParseBool(fs[2]), Codec.ParseBool(fs[3]),
               Codec.ParseNat(fs[6]), Codec.ParseBool(fs[7]), Codec.ParseBool(fs[8]))
        case (Some(a), Some(b), Some(c), Some(d), Some(n), Some(e), Some(f)) =>
          Some(SettingsRecord(a, b, c, d, fs[4], fs[5], n, e, f))
        case _ => None
  }

  /** The saved text holds the whole record: reading it back gives the record. */
  lemma DecodeEncode(s: SettingsRecord)
    ensures Decode(Encode(s)) == Some(s)
  {
    Codec.DecodeEncodeFields(Fields(s));
    Codec.ParseDecimal(s.fontSize);
    Codec.ParseBoolText(s.notifications);
    Codec.ParseBoolText(s.emailNotifications);
    Codec.ParseBoolText(s.soundEffects);
    Codec.ParseBoolText(s.autoplay);
    Codec.ParseBoolText(s.animations);
    Codec.ParseBoolText(s.dataUsage);
  }

  class SettingsPanel {
    var settings: SettingsRecord

    ghost predicate Valid()
      reads this
    {
      WellFormed(settings)
    }

    constructor ()
      ensures Valid() && settings == Defaults
    {
      settings := Defaults;
    }

    method HandleToggle(k: Switch)
      requires Valid()
      modifies this
      ensures Valid() && settings == Toggled(old(settings), k)
    {
      settings := Toggled(settings, k);
    }

    /** The slider: values from 12 to 20 in steps of 1. */
    method SetFontSize(value: nat)
      requires Valid() && MinFontSize <= value <= MaxFontSize
      modifies this
      ensures Valid() && settings == old(settings).(fontSize := value)
    {
      settings := settings.(fontSize := value);
    }

    /** The video-quality select: one of its four options. */
    method SetVideoQuality(value: string)
      requires Valid() && value in VideoQualities
      modifies this
      ensures Valid() && settings == old(settings).(videoQuality := value)
    {
      settings := settings.(videoQuality := value);
    }

    /** The language select: one of its three options. */
    method SetLanguage(value: string)
      requires Valid() && value in Languages
      modifies this
      ensures Valid() && settings == old(settings).(language := value)
    {
      settings := settings.(language := value);
    }

    /** handleSave: the whole current record goes to storage under "userSettings", nothing else changes. */
    method HandleSave(store: LocalStorage)
      requires Valid()
      modifies store
      ensures store.items == Set(old(store.items), SettingsKey, Encode(settings))
      ensures Get(store.items, SettingsKey).Some? && Decode(Get(store.items, SettingsKey).value) == Some(settings)
    {
      store.SetItem(SettingsKey, Encode(settings));
      DecodeEncode(settings);
    }
  }
}
