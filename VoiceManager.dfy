/**
 * The registry of the active voice: one optional profile in memory, backed by
 * the store. Bootstrap and switch reload it from the store; set writes it
 * through to the store; get reads it.
 */
module Manager {
  import opened Wrappers
  import opened Uuids
  import opened Profiles
  import opened Storage

  class VoiceManager {
    var activeVoiceProfile: Option<VoiceProfile>
    const storage: VoiceStorage

    constructor (storage: VoiceStorage)
      ensures activeVoiceProfile == None && this.storage == storage
    {
      activeVoiceProfile := None;
      this.storage := storage;
    }

    /** Memory and store agree: the active profile is what the store holds for its companion. */
    ghost predicate InSync()
      reads this, storage
    {
      activeVoiceProfile.Some? ==>
        LoadFrom(storage.defaults, activeVoiceProfile.value.companionID) == activeVoiceProfile
    }

    /** Restores the last active voice of a companion at start-up, or none. */
    method BootstrapActiveVoice(companionID: Uuid)
      modifies this`activeVoiceProfile
      ensures activeVoiceProfile == LoadFrom(storage.defaults, companionID)
      ensures storage.defaults == old(storage.defaults)
      ensures WellKeyed(storage.defaults) ==> InSync()
    {
      var saved := storage.LoadActive(companionID);
      if saved.Some? {
        activeVoiceProfile := saved;
      } else {
        activeVoiceProfile := None;
      }
    }

    method GetActiveVoice() returns (r: Option<VoiceProfile>)
      ensures r == activeVoiceProfile
    {
      r := activeVoiceProfile;
    }

    /** Makes `p` active and persists it under its companion's key. */
    method SetActiveVoice(p: VoiceProfile)
      modifies this`activeVoiceProfile, storage
      ensures activeVoiceProfile == Some(p)
      ensures storage.defaults == SaveInto(old(storage.defaults), p)
      ensures InSync()
      ensures WellKeyed(old(storage.defaults)) ==> WellKeyed(storage.defaults)
    {
      activeVoiceProfile := Some(p);
      storage.SaveActive(p);
    }

    /** Called on a change of companion: the same reload as at start-up. */
    method SwitchCompanion(companionID: Uuid)
      modifies this`activeVoiceProfile
      ensures activeVoiceProfile == LoadFrom(storage.defaults, companionID)
      ensures storage.defaults == old(storage.defaults)
      ensures WellKeyed(storage.defaults) ==> InSync()
    {
      activeVoiceProfile := storage.LoadActive(companionID);
    }
  }
}
