/**
 * The profile form of profile-form.tsx: its default values, the reset when
 * the provider's profile changes, and submission into the provider.
 */
module ProfileForm {
  import opened Common
  import opened ProfileSchema
  import opened ProfileContext
  import ProfileCodec

  /** The form's view of a profile: every macro is a number. */
  function ToFormValues(p: Profile): FormValues {
    FormValues(Some(p.protein), Some(p.carbs), Some(p.fat), p.restrictions, p.fitnessGoal)
  }

  /** `defaultValues`: the provider's profile, or zero macros, empty restrictions and no goal. */
  function DefaultValues(profile: Option<Profile>): FormValues {
    match profile
    case Some(p) => ToFormValues(p)
    case None => FormValues(Some(0), Some(0), Some(0), Some(""), None)
  }

  /** The effect that resets the form whenever the provider's profile becomes non-null. */
  function ResetOnProfileChange(current: FormValues, profile: Option<Profile>): (r: FormValues)
    ensures profile.None? ==> r == current
    ensures profile.Some? ==> r == ToFormValues(profile.value)
    ensures profile.Some? ==> Validate(r) == Validate(ToFormValues(profile.value))
    ensures profile.Some? && Validate(r).Ok? ==> Validate(r).value == profile.value
  {
    match profile
    case Some(p) => ToFormValues(p)
    case None => current
  }

  /**
   * The empty form fails on the goal alone, and the record it stands for is
   * not complete.
   */
  lemma DefaultValuesIncomplete()
    ensures Validate(DefaultValues(None)) == Err([GoalRequired])
    ensures CustomMessage(Validate(DefaultValues(None)).error[0]) == Some("You need to select a fitness goal.")
    ensures !IsProfileComplete(Some(Profile(0, 0, 0, Some(""), None)))
  {
    var v := DefaultValues(None);
    assert MacroIssues(ProteinField, v.protein) == [];
    assert GoalIssues(v.fitnessGoal) == [GoalRequired];
    assert Issues(v) == [GoalRequired];
    assert Validate(v) == Err(Issues(v));
  }

  /** Whatever passes the schema is a complete profile. */
  lemma ValidatedProfileIsComplete(v: FormValues)
    requires Validate(v).Ok?
    ensures IsProfileComplete(Some(Validate(v).value))
  {
  }

  /**
   * A profile shown in the form validates back to itself exactly when it is
   * complete and its goal is one of the three the schema allows.
   */
  lemma FormRoundTrip(p: Profile)
    ensures Validate(ToFormValues(p)).Ok? <==> IsProfileComplete(Some(p)) && IsFitnessGoal(p.fitnessGoal.value)
    ensures Validate(ToFormValues(p)).Ok? ==> Validate(ToFormValues(p)).value == p
  {
  }

  /**
   * `onSubmit`: the validated record goes to `updateProfile` unchanged; the
   * provider then re-renders and its save effect runs.
   */
  method OnSubmit(provider: UserProfileProvider, data: Profile, writeFails: bool)
    modifies provider, provider.storage
    ensures provider.profile == Some(data)
    ensures provider.isInitialized == old(provider.isInitialized)
    ensures provider.isInitialized && !writeFails ==>
      provider.storage.items == old(provider.storage.items)[LocalStorageKey := ProfileCodec.Encode(data)]
    ensures provider.isInitialized && writeFails ==> provider.storage.items == old(provider.storage.items)
    ensures !old(provider.isInitialized) ==> provider.storage.items == old(provider.storage.items)
    ensures !writeFails ==> provider.Synced()
  {
    provider.UpdateProfile(data);
    provider.SaveEffect(writeFails);
  }

  /**
   * `form.handleSubmit(onSubmit)`: the schema runs first; only a valid value
   * reaches `onSubmit`, and an invalid one changes nothing.
   */
  method HandleSubmit(provider: UserProfileProvider, values: FormValues, writeFails: bool)
    returns (issues: seq<Issue>)
    modifies provider, provider.storage
    ensures Validate(values).Err? ==>
      (issues == Validate(values).error
       && provider.profile == old(provider.profile) && provider.storage.items == old(provider.storage.items))
    ensures Validate(values).Ok? ==>
      (issues == [] && provider.profile == Some(Validate(values).value) && IsProfileComplete(provider.profile))
    ensures provider.isInitialized == old(provider.isInitialized)
    ensures Validate(values).Ok? && !writeFails ==> provider.Synced()
    ensures Validate(values).Ok? && provider.isInitialized && !writeFails ==>
      provider.storage.items == old(provider.storage.items)[LocalStorageKey := ProfileCodec.Encode(Validate(values).value)]
    ensures writeFails ==> provider.storage.items == old(provider.storage.items)
    ensures !old(provider.isInitialized) ==> provider.storage.items == old(provider.storage.items)
  {
    match Validate(values)
    case Err(found) =>
      issues := found;
    case Ok(data) =>
      issues := [];
      ValidatedProfileIsComplete(values);
      OnSubmit(provider, data, writeFails);
  }
}
