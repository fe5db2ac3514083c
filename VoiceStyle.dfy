/** Speaking styles, persisted and shown by their raw string name. */
module Styles {
  import opened Wrappers

  datatype VoiceStyle = Calm | Energetic | Gentle | Lively | Sexy | Mentor | Friendly | Coach

  /** `VoiceStyle.allCases`, in declaration order. */
  const AllCases: seq<VoiceStyle> := [Calm, Energetic, Gentle, Lively, Sexy, Mentor, Friendly, Coach]

  /** The implicit raw value: the case identifier, spelled as in the enum. */
  function RawValue(s: VoiceStyle): (raw: string)
    ensures |raw| > 0 && '_' !in raw
  {
    match s
    case Calm => "calm"
    case Energetic => "energetic"
    case Gentle => "gentle"
    case Lively => "lively"
    case Sexy => "sexy"
    case Mentor => "mentor"
    case Friendly => "friendly"
    case Coach => "coach"
  }

  /** `VoiceStyle(rawValue:)`: the case with that raw value, if there is one. */
  function FromRawValue(raw: string): (r: Option<VoiceStyle>)
    ensures r.Some? ==> RawValue(r.value) == raw
  {
    if raw == "calm" then Some(Calm)
    else if raw == "energetic" then Some(Energetic)
    else if raw == "gentle" then Some(Gentle)
    else if raw == "lively" then Some(Lively)
    else if raw == "sexy" then Some(Sexy)
    else if raw == "mentor" then Some(Mentor)
    else if raw == "friendly" then Some(Friendly)
    else if raw == "coach" then Some(Coach)
    else None
  }

  /** Decoding a raw value gives back its case, and nothing else decodes. */
  lemma RawValueRoundTrip(s: VoiceStyle, raw: string)
    ensures FromRawValue(raw) == Some(s) <==> RawValue(s) == raw
    ensures FromRawValue(raw) == None <==> forall t :: RawValue(t) != raw
  {

  }

  lemma RawValueInjective(s: VoiceStyle, t: VoiceStyle)
    ensures RawValue(s) == RawValue(t) <==> s == t
  {

  }

  /** `allCases` lists every style exactly once, eight in all. */
  lemma AllCasesComplete(s: VoiceStyle)
    ensures |AllCases| == 8 && s in AllCases
    ensures forall i, j :: 0 <= i < j < |AllCases| ==> AllCases[i] != AllCases[j]
  {
  }
}
