/** The preference store (contexts/PreferencesContext.tsx): the in-memory
    record, the persisted copy that an effect overwrites after every change,
    a single-key patch and a reset to the defaults. */
module PreferenceStore {
  import opened Util
  import opened Types

  /** The name of one key of the record. */
  datatype FieldName =
    | EmailName | WhatsappNumberName | WhatsAppConfirmedName | CategoryName(key: CategoryKey)
    | CustomInterestTagsName | FrequencyName | CustomFrequencyTimeName | PlatformName | AlertsPausedName

  /** One key of the record together with a value for it: the argument pair
      `(key, value)` of `updatePreference`, typed as the record types it. */
  datatype Field =
    | EmailField(email: string)
    | WhatsappNumberField(number: string)
    | WhatsAppConfirmedField(confirmed: bool)
    | CategoryField(key: CategoryKey, prefs: CategoryPrefs)
    | CustomInterestTagsField(tags: seq<string>)
    | FrequencyField(frequency: UpdateFrequency)
    | CustomFrequencyTimeField(time: Option<string>)
    | PlatformField(platform: Platform)
    | AlertsPausedField(paused: bool)
  {
    function Name(): FieldName {
      match this
      case EmailField(_) => EmailName
      case WhatsappNumberField(_) => WhatsappNumberName
      case WhatsAppConfirmedField(_) => WhatsAppConfirmedName
      case CategoryField(k, _) => CategoryName(k)
      case CustomInterestTagsField(_) => CustomInterestTagsName
      case FrequencyField(_) => FrequencyName
      case CustomFrequencyTimeField(_) => CustomFrequencyTimeName
      case PlatformField(_) => PlatformName
      case AlertsPausedField(_) => AlertsPausedName
    }
  }

  /** `preferences[key]`, paired with its key. */
  function Get(p: UserPreferences, n: FieldName): (f: Field)
    ensures f.Name() == n
  {
    match n
    case EmailName => EmailField(p.email)
    case WhatsappNumberName => WhatsappNumberField(p.whatsappNumber)
    case WhatsAppConfirmedName => WhatsAppConfirmedField(p.isWhatsAppConfirmed)
    case CategoryName(k) => CategoryField(k, p.Category(k))
    case CustomInterestTagsName => CustomInterestTagsField(p.customInterestTags)
    case FrequencyName => FrequencyField(p.frequency)
    case CustomFrequencyTimeName => CustomFrequencyTimeField(p.customFrequencyTime)
    case PlatformName => PlatformField(p.platform)
    case AlertsPausedName => AlertsPausedField(p.alertsPaused)
  }

  /** `{ ...prev, [key]: value }`. */
  function Patch(p: UserPreferences, f: Field): (r: UserPreferences)
    ensures Get(r, f.Name()) == f
    ensures forall n :: n != f.Name() ==> Get(r, n) == Get(p, n)
  {
    match f
    case EmailField(v) => p.(email := v)
    case WhatsappNumberField(v) => p.(whatsappNumber := v)
    case WhatsAppConfirmedField(v) => p.(isWhatsAppConfirmed := v)
    case CategoryField(k, c) => p.WithCategory(k, c)
    case CustomInterestTagsField(v) => p.(customInterestTags := v)
    case FrequencyField(v) => p.(frequency := v)
    case CustomFrequencyTimeField(v) => p.(customFrequencyTime := v)
    case PlatformField(v) => p.(platform := v)
    case AlertsPausedField(v) => p.(alertsPaused := v)
  }

  /** A record is determined by the values of its keys. */
  lemma RecordDeterminedByKeys(p: UserPreferences, q: UserPreferences)
    requires forall n :: Get(p, n) == Get(q, n)
    ensures p == q
  {
    assert Get(p, EmailName) == Get(q, EmailName);
    assert Get(p, WhatsappNumberName) == Get(q, WhatsappNumberName);
    assert Get(p, WhatsAppConfirmedName) == Get(q, WhatsAppConfirmedName);
    assert Get(p, CustomInterestTagsName) == Get(q, CustomInterestTagsName);
    assert Get(p, FrequencyName) == Get(q, FrequencyName);
    assert Get(p, CustomFrequencyTimeName) == Get(q, CustomFrequencyTimeName);
    assert Get(p, PlatformName) == Get(q, PlatformName);
    assert Get(p, AlertsPausedName) == Get(q, AlertsPausedName);
    forall k: CategoryKey ensures p.Category(k) == q.Category(k) {
      assert Get(p, CategoryName(k)) == Get(q, CategoryName(k));
    }
    RecordsEqualByParts(p, q);
  }

  /** Patching the same key with the same value twice is patching it once. */
  lemma {:induction false} PatchIdempotent(p: UserPreferences, f: Field)
    ensures Patch(Patch(p, f), f) == Patch(p, f)
  {
    var once, twice := Patch(p, f), Patch(Patch(p, f), f);
    forall n ensures Get(twice, n) == Get(once, n) {
    }
    RecordDeterminedByKeys(twice, once);
  }

  /** Only the patched key decides the result: a later patch of the same key
      overrides an earlier one. */
  lemma {:induction false} PatchOverrides(p: UserPreferences, f: Field, g: Field)
    requires f.Name() == g.Name()
    ensures Patch(Patch(p, f), g) == Patch(p, g)
  {
    var a, b := Patch(Patch(p, f), g), Patch(p, g);
    forall n ensures Get(a, n) == Get(b, n) {
    }
    RecordDeterminedByKeys(a, b);
  }

  /** Writing back the value a key already has changes nothing. */
  lemma {:induction false} PatchWithOwnValue(p: UserPreferences, n: FieldName)
    ensures Patch(p, Get(p, n)) == p
  {
    var r := Patch(p, Get(p, n));
    forall m ensures Get(r, m) == Get(p, m) {
    }
    RecordDeterminedByKeys(r, p);
  }

  /** The provider's state: the record the pages read and write, and the
      document kept in durable storage under the key `userPreferences`. */
  class Store {
    var preferences: UserPreferences
    var stored: UserPreferences

    /** After every change the stored copy equals the in-memory record. */
    ghost predicate Valid()
      reads this
    {
      stored == preferences
    }

    /** Starts from the stored document, or from the defaults when there is
        none, and writes that back. */
    constructor (persisted: Option<UserPreferences>)
      ensures Valid()
      ensures preferences == persisted.GetOr(InitialPreferences())
    {
      preferences := persisted.GetOr(InitialPreferences());
      stored := persisted.GetOr(InitialPreferences());
    }

    /** The effect that runs after each change: the whole document is replaced. */
    method Persist()
      modifies this
      ensures Valid() && preferences == old(preferences)
    {
      stored := preferences;
    }

    method SetPreferences(p: UserPreferences)
      modifies this
      ensures Valid() && preferences == p
    {
      preferences := p;
      Persist();
    }

    /** `updatePreference(key, value)`. */
    method UpdatePreference(f: Field)
      modifies this
      ensures Valid() && preferences == Patch(old(preferences), f)
    {
      preferences := Patch(preferences, f);
      Persist();
    }

    /** `resetPreferences()`. */
    method ResetPreferences()
      modifies this
      ensures Valid() && preferences == InitialPreferences()
    {
      preferences := InitialPreferences();
      Persist();
    }
  }
}
