/**
 * Client code that uses only the contracts of the store, the repository and
 * the manager. `StorageSaveAndLoad` and `SwitchCompanion` follow the SDK's unit
 * tests; the other three state further properties of the same operations.
 */
module Scenarios {
  import opened Wrappers
  import opened Uuids
  import opened Styles
  import opened Tones
  import opened Speeds
  import opened Profiles
  import opened Storage
  import opened Repository
  import opened Manager

  /** Whatever the store held before, saving and then loading gives the profile back. */
  method StorageSaveAndLoad(storage: VoiceStorage, p: VoiceProfile) returns (loaded: Option<VoiceProfile>)
    modifies storage
    ensures loaded == Some(p)
  {
    storage.SaveActive(p);
    loaded := storage.LoadActive(p.companionID);
  }

  /** A save through one repository is seen by a load through another. */
  method RepositorySaveAndLoad(storage: VoiceStorage, p: VoiceProfile) returns (loaded: Option<VoiceProfile>)
    modifies storage
    ensures loaded == Some(p)
  {
    var writer := new VoiceRepository(storage);
    writer.SaveActive(p);
    var reader := new VoiceRepository(storage);
    loaded := reader.LoadActive(p.companionID);
  }

  /** After setting a voice, reading the active voice gives exactly that voice. */
  method SetThenGet(manager: VoiceManager, p: VoiceProfile) returns (active: Option<VoiceProfile>)
    modifies manager, manager.storage
    ensures active == Some(p)
  {
    manager.SetActiveVoice(p);
    active := manager.GetActiveVoice();
  }

  /**
   * Save a calm profile for `id1`, bootstrap `id1`, then switch to `id2`
   * (which has no record). The final switch back to `id1` goes one step past
   * the SDK's test and shows that the store still holds the record.
   */
  method SwitchCompanion(storage: VoiceStorage, id1: Uuid, id2: Uuid, folder: Url)
    returns (afterBootstrap: Option<VoiceProfile>, afterSwitch: Option<VoiceProfile>, afterSwitchBack: Option<VoiceProfile>)
    requires id1 != id2 && LoadFrom(storage.defaults, id2) == None
    modifies storage
    ensures afterBootstrap == Some(VoiceProfile(id1, Calm, Neutral, Normal, folder))
    ensures afterSwitch == None
    ensures afterSwitchBack == afterBootstrap
  {
    var profile1 := VoiceProfile(id1, Calm, Neutral, Normal, folder);
    storage.SaveActive(profile1);
    SaveFrame(old(storage.defaults), profile1, id2);

    var manager := new VoiceManager(storage);
    manager.BootstrapActiveVoice(id1);
    afterBootstrap := manager.GetActiveVoice();

    manager.SwitchCompanion(id2);
    afterSwitch := manager.GetActiveVoice();

    manager.SwitchCompanion(id1);
    afterSwitchBack := manager.GetActiveVoice();
  }

  /** Switching to a companion and bootstrapping it leave the same active voice. */
  method SwitchMatchesBootstrap(storage: VoiceStorage, companionID: Uuid)
    returns (bootstrapped: Option<VoiceProfile>, switched: Option<VoiceProfile>)
    ensures bootstrapped == switched == LoadFrom(storage.defaults, companionID)
  {
    var first := new VoiceManager(storage);
    first.BootstrapActiveVoice(companionID);
    bootstrapped := first.GetActiveVoice();
    var second := new VoiceManager(storage);
    second.SwitchCompanion(companionID);
    switched := second.GetActiveVoice();
  }
}
