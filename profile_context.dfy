/**
 * The profile provider of user-profile-context.tsx: the profile held in
 * memory, the initialisation flag, the derived completeness flag, and the two
 * effects that load the profile from the device's key-value store and write
 * it back.
 */
module ProfileContext {
  import opened Common
  import opened ProfileSchema
  import ProfileCodec

  /** The one key under which the profile is stored. */
  const LocalStorageKey: string := "fitfoodie_profile"

  /**
   * `isProfileComplete`: a profile is present, its goal is defined and the
   * three macros are non-negative. Restrictions play no part.
   */
  predicate IsProfileComplete(profile: Option<Profile>) {
    && profile.Some?
    && profile.value.fitnessGoal.Some?
    && profile.value.protein >= 0
    && profile.value.carbs >= 0
    && profile.value.fat >= 0
  }

  /** Changing only the restrictions never changes completeness. */
  lemma CompletenessIgnoresRestrictions(p: Profile, restrictions: Option<string>)
    ensures IsProfileComplete(Some(p)) == IsProfileComplete(Some(p.(restrictions := restrictions)))
  {
  }

  /**
   * The device's key-value store (`localStorage`). Whether an access throws
   * is decided by the environment and is passed in as `fails`.
   */
  class DeviceStore {
    var items: map<string, string>

    constructor (initial: map<string, string>)
      ensures items == initial
    {
      items := initial;
    }

    /** `getItem`: the stored text, `None` when the key is missing, `Err` when the access throws. */
    method GetItem(key: string, fails: bool) returns (r: Result<Option<string>, ()>)
      ensures fails ==> r == Err(())
      ensures !fails ==> r == Ok(if key in items then Some(items[key]) else None)
    {
      if fails {
        r := Err(());
      } else if key in items {
        r := Ok(Some(items[key]));
      } else {
        r := Ok(None);
      }
    }

    /** `setItem`: on failure nothing is written. */
    method SetItem(key: string, value: string, fails: bool) returns (ok: bool)
      modifies this
      ensures ok == !fails
      ensures items == if ok then old(items)[key := value] else old(items)
    {
      ok := !fails;
      if ok {
        items := items[key := value];
      }
    }

    /** `removeItem`: on failure nothing is removed. */
    method RemoveItem(key: string, fails: bool) returns (ok: bool)
      modifies this
      ensures ok == !fails
      ensures items == if ok then old(items) - {key} else old(items)
    {
      ok := !fails;
      if ok {
        items := items - {key};
      }
    }
  }

  /**
   * The profile after the load effect: the decoded stored text when there
   * is non-empty text and it decodes; otherwise the profile is left as it was.
   */
  function LoadedProfile(items: map<string, string>, readFails: bool, current: Option<Profile>): Option<Profile> {
    if readFails || LocalStorageKey !in items || items[LocalStorageKey] == "" then current
    else match ProfileCodec.Decode(items[LocalStorageKey])
      case Some(p) => Some(p)
      case None => current
  }

  /** A missing key, an empty entry, a failed read or text that does not decode all leave the profile alone. */
  lemma LoadKeepsProfileOnFailure(items: map<string, string>, readFails: bool, current: Option<Profile>)
    requires readFails || LocalStorageKey !in items || items[LocalStorageKey] == ""
             || ProfileCodec.Decode(items[LocalStorageKey]).None?
    ensures LoadedProfile(items, readFails, current) == current
  {
  }

  /** A readable entry holding an encoded profile loads as that profile. */
  lemma LoadReadsBackSaved(items: map<string, string>, p: Profile, current: Option<Profile>)
    requires LocalStorageKey in items && items[LocalStorageKey] == ProfileCodec.Encode(p)
    ensures LoadedProfile(items, false, current) == Some(p)
  {
    ProfileCodec.DecodeEncode(p);
  }

  /**
   * A load either keeps the current profile or installs the one whose saved
   * form is exactly the stored text: a corrupt entry never becomes a profile.
   */
  lemma LoadOnlyFromSavedText(items: map<string, string>, readFails: bool, current: Option<Profile>)
    ensures var loaded := LoadedProfile(items, readFails, current);
      || loaded == current
      || (&& !readFails && LocalStorageKey in items && loaded.Some?
          && items[LocalStorageKey] == ProfileCodec.Encode(loaded.value))
  {
    if !readFails && LocalStorageKey in items && items[LocalStorageKey] != ""
       && ProfileCodec.Decode(items[LocalStorageKey]).Some? {
      ProfileCodec.DecodeOnlyEncodings(items[LocalStorageKey]);
    }
  }

  class UserProfileProvider {
    var profile: Option<Profile>
    var isInitialized: bool
    const storage: DeviceStore

    /** `useState(null)` and `useState(false)`. */
    constructor (storage: DeviceStore)
      ensures profile == None && !isInitialized && this.storage == storage
    {
      profile := None;
      isInitialized := false;
      this.storage := storage;
    }

    /**
     * The store agrees with memory: once initialised, a present profile is
     * stored as text that reads back as it, and an absent one has no entry.
     */
    ghost predicate Synced()
      reads this, storage
    {
      isInitialized ==>
        match profile
        case Some(p) => LocalStorageKey in storage.items && ProfileCodec.Decode(storage.items[LocalStorageKey]) == Some(p)
        case None => LocalStorageKey !in storage.items
    }

    /** The load effect: runs once at mount; the flag is set whatever happens. */
    method LoadEffect(readFails: bool)
      modifies this
      ensures isInitialized
      ensures profile == LoadedProfile(storage.items, readFails, old(profile))
    {
      var stored := storage.GetItem(LocalStorageKey, readFails);
      if stored.Ok? && stored.value.Some? && stored.value.value != "" {
        var parsed := ProfileCodec.Decode(stored.value.value);
        if parsed.Some? {
          profile := Some(parsed.value);
        }
      }
      isInitialized := true;
    }

    /**
     * The save effect: before initialisation it does nothing; afterwards it
     * writes the whole profile, or removes the key when there is none. A
     * failed write or removal leaves the store as it was.
     */
    method SaveEffect(writeFails: bool)
      modifies storage
      ensures profile == old(profile) && isInitialized == old(isInitialized)
      ensures !isInitialized ==> storage.items == old(storage.items)
      ensures isInitialized && profile.Some? ==>
        storage.items == if writeFails then old(storage.items)
                         else old(storage.items)[LocalStorageKey := ProfileCodec.Encode(profile.value)]
      ensures isInitialized && profile.None? ==>
        storage.items == if writeFails then old(storage.items) else old(storage.items) - {LocalStorageKey}
      ensures !writeFails ==> Synced()
    {
      if isInitialized && profile.Some? {
        var ok := storage.SetItem(LocalStorageKey, ProfileCodec.Encode(profile.value), writeFails);
        ProfileCodec.DecodeEncode(profile.value);
      } else if isInitialized && profile.None? {
        var ok := storage.RemoveItem(LocalStorageKey, writeFails);
      }
    }

    /** `updateProfile`: the held profile is replaced wholesale. */
    method UpdateProfile(newProfile: Profile)
      modifies this
      ensures profile == Some(newProfile) && isInitialized == old(isInitialized)
    {
      profile := Some(newProfile);
    }

    /**
     * Mounting the provider: both effects run once with the initial state (the
     * save effect then does nothing), and the save effect runs again after the
     * re-render that the load caused.
     */
    method Mount(readFails: bool, writeFails: bool)
      requires !isInitialized && profile == None
      modifies this, storage
      ensures isInitialized
      ensures profile == LoadedProfile(old(storage.items), readFails, None)
      ensures !writeFails ==> Synced()
      ensures !writeFails ==>
        storage.items == if profile.Some? then old(storage.items) else old(storage.items) - {LocalStorageKey}
      ensures writeFails ==> storage.items == old(storage.items)
    {
      LoadOnlyFromSavedText(storage.items, readFails, None);
      LoadEffect(readFails);
      SaveEffect(writeFails);
    }
  }

  /**
   * Saving a profile and starting the application again with the same device
   * store yields that profile, whatever the store held before.
   */
  method SaveThenRestart(p: Profile, initial: map<string, string>) returns (reloaded: Option<Profile>)
    ensures reloaded == Some(p)
  {
    var device := new DeviceStore(initial);
    var first := new UserProfileProvider(device);
    first.Mount(false, false);
    first.UpdateProfile(p);
    first.SaveEffect(false);
    var second := new UserProfileProvider(device);
    second.Mount(false, false);
    reloaded := second.profile;
  }
}
