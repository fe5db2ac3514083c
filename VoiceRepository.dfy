/**
 * The repository upper layers are meant to depend on. It keeps no state of its
 * own and forwards both operations to the store.
 */
module Repository {
  import opened Wrappers
  import opened Uuids
  import opened Profiles
  import opened Storage

  class VoiceRepository {
    /** The store it forwards to (in the SDK, the one shared user-defaults store). */
    const storage: VoiceStorage

    constructor (storage: VoiceStorage)
      ensures this.storage == storage
    {
      this.storage := storage;
    }

    method SaveActive(p: VoiceProfile)
      modifies storage
      ensures storage.defaults == SaveInto(old(storage.defaults), p)
    {
      storage.SaveActive(p);
    }

    method LoadActive(companionID: Uuid) returns (r: Option<VoiceProfile>)
      ensures r == LoadFrom(storage.defaults, companionID)
      ensures WellKeyed(storage.defaults) && r.Some? ==> r.value.companionID == companionID
    {
      r := storage.LoadActive(companionID);
    }
  }
}
