/** The delivery-cadence page (pages/FrequencySettingsPage.tsx): choosing a
    frequency, editing the custom delivery time, and the check on submit. */
module FrequencySettings {
  import opened Util
  import opened Types
  import opened PreferenceStore

  const DefaultCustomTime: string := "09:00"
  const MissingTimeError: string := "Please specify a time for custom frequency."

  /** A delivery time is kept only while the frequency is Custom. */
  predicate TimeRule(p: UserPreferences)
  {
    p.frequency != Custom ==> p.customFrequencyTime == None
  }

  /** The defaults obey the rule. */
  lemma InitialTimeRule()
    ensures TimeRule(InitialPreferences())
  {
  }

  /** The time input starts from the saved time when it is non-empty, and
      from 09:00 otherwise; it never starts empty. */
  function StartingTime(saved: Option<string>): (t: string)
    ensures t != ""
    ensures IsTruthy(saved) ==> t == saved.value
  {
    if IsTruthy(saved) then saved.value else DefaultCustomTime
  }

  class FrequencySettingsPage {
    const store: Store
    var customTime: string
    var timeError: string

    ghost predicate Valid()
      reads this, store
    {
      store.Valid()
    }

    /** Under Custom the stored time is the one the input shows. */
    ghost predicate Synced()
      reads this, store
    {
      store.preferences.frequency == Custom ==> store.preferences.customFrequencyTime == Some(customTime)
    }

    constructor (store: Store)
      requires store.Valid()
      ensures Valid() && this.store == store
      ensures customTime == StartingTime(store.preferences.customFrequencyTime) && timeError == ""
    {
      this.store := store;
      customTime := StartingTime(store.preferences.customFrequencyTime);
      timeError := "";
    }

    /** `handleFrequencyTagSelect`: any other frequency drops the time and
        the error; Custom stores the time the input shows. */
    method HandleFrequencyTagSelect(f: UpdateFrequency)
      requires Valid()
      modifies this, store
      ensures Valid()
      ensures store.preferences == old(store.preferences).(frequency := f,
        customFrequencyTime := if f == Custom then Some(customTime) else None)
      ensures timeError == if f == Custom then old(timeError) else ""
      ensures customTime == old(customTime)
      ensures TimeRule(store.preferences) && Synced()
    {
      store.UpdatePreference(FrequencyField(f));
      if f != Custom {
        store.UpdatePreference(CustomFrequencyTimeField(None));
        timeError := "";
      } else {
        store.UpdatePreference(CustomFrequencyTimeField(Some(customTime)));
      }
    }

    /** `handleTimeChange`: the input always follows; the store only under
        Custom; a non-empty time clears the error. */
    method HandleTimeChange(newTime: string)
      requires Valid()
      modifies this, store
      ensures Valid()
      ensures customTime == newTime
      ensures store.preferences ==
        if old(store.preferences).frequency == Custom
        then old(store.preferences).(customFrequencyTime := Some(newTime))
        else old(store.preferences)
      ensures timeError == if newTime != "" then "" else old(timeError)
      ensures old(TimeRule(store.preferences)) ==> TimeRule(store.preferences)
      ensures Synced()
    {
      customTime := newTime;
      if store.preferences.frequency == Custom {
        store.UpdatePreference(CustomFrequencyTimeField(Some(newTime)));
      }
      if newTime != "" {
        timeError := "";
      }
    }

    /** `handleSubmit`: blocked with an error exactly when the frequency is
        Custom and the time is empty; otherwise the error is cleared and the
        page moves on. When the store follows the input, moving on under
        Custom means a non-empty time is stored. */
    method HandleSubmit() returns (proceed: bool)
      requires Valid()
      modifies this
      ensures Valid()
      ensures proceed <==> !(store.preferences.frequency == Custom && customTime == "")
      ensures timeError == if proceed then "" else MissingTimeError
      ensures customTime == old(customTime)
      ensures proceed && Synced() && store.preferences.frequency == Custom ==>
        IsTruthy(store.preferences.customFrequencyTime)
    {
      if store.preferences.frequency == Custom && customTime == "" {
        timeError := MissingTimeError;
        return false;
      }
      timeError := "";
      return true;
    }
  }
}
