/** The SDK's error cases and the user-facing message of each. */
module VoiceErrors {

  datatype VoiceError = InferenceFailed | GenerationFailed | StorageFailed | ActiveProfileMissing

  const AllCases: seq<VoiceError> := [InferenceFailed, GenerationFailed, StorageFailed, ActiveProfileMissing]

  /** `VoiceError.message`: safe to show in the UI or a log. */
  function Message(e: VoiceError): (m: string)
    ensures |m| > 0
  {
    match e
    case InferenceFailed => "初期音声の推定に失敗しました。"
    case GenerationFailed => "音声ファイルの生成に失敗しました。"
    case StorageFailed => "音声設定の保存に失敗しました。"
    case ActiveProfileMissing => "アクティブな音声プロファイルが見つかりません。"
  }

  /** A message identifies its error. */
  lemma MessageInjective(e: VoiceError, f: VoiceError)
    ensures Message(e) == Message(f) <==> e == f
  {
  }

  lemma AllCasesComplete(e: VoiceError)
    ensures |AllCases| == 4 && e in AllCases
    ensures forall i, j :: 0 <= i < j < |AllCases| ==> AllCases[i] != AllCases[j]
  {
  }
}
