/**
 * The two pieces of decision logic in the voice editor screen: which settings
 * the pickers start from, and how an edited profile is committed once audio
 * generation has handed back the final profile.
 */
module Editor {
  import opened Wrappers
  import opened Styles
  import opened Tones
  import opened Speeds
  import opened Profiles
  import opened Storage
  import opened Manager
  import opened Repository

  /**
   * The initial picker selection: the profile passed in, else the active
   * voice, else gentle / neutral / normal.
   */
  function InitialSelection(initialProfile: Option<VoiceProfile>, active: Option<VoiceProfile>)
    : (sel: (VoiceStyle, VoiceTone, VoiceSpeed))
    ensures initialProfile.Some? ==>
      sel == (initialProfile.value.style, initialProfile.value.tone, initialProfile.value.speed)
    ensures initialProfile.None? && active.Some? ==>
      sel == (active.value.style, active.value.tone, active.value.speed)
    ensures initialProfile.None? && active.None? ==> sel == (Gentle, Neutral, Normal)
  {
    var base := if initialProfile.Some? then initialProfile else active;
    if base.Some? then (base.value.style, base.value.tone, base.value.speed)
    else (Gentle, Neutral, Normal)
  }

  /**
   * Commits a generated profile: set it active, then save it again through the
   * repository. The second save rewrites the same record, so the outcome is
   * that of `SetActiveVoice` alone.
   */
  method CommitEdited(manager: VoiceManager, repository: VoiceRepository, updated: VoiceProfile)
    requires repository.storage == manager.storage
    modifies manager`activeVoiceProfile, manager.storage
    ensures manager.activeVoiceProfile == Some(updated)
    ensures manager.storage.defaults == SaveInto(old(manager.storage.defaults), updated)
    ensures manager.InSync()
  {
    manager.SetActiveVoice(updated);
    repository.SaveActive(updated);
    LastWriteWins(old(manager.storage.defaults), updated, updated);
  }
}
