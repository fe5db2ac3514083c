/** One companion's voice configuration: an immutable value. */
module Profiles {
  import opened Uuids
  import opened Styles
  import opened Tones
  import opened Speeds

  /** A file URL, reduced to its path. */
  datatype Url = FileUrl(path: string)

  datatype VoiceProfile = VoiceProfile(
    companionID: Uuid,
    style: VoiceStyle,
    tone: VoiceTone,
    speed: VoiceSpeed,
    assetFolderURL: Url)
}
