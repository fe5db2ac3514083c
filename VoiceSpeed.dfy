/** Speaking speeds, persisted and shown by their raw string name. */
module Speeds {
  import opened Wrappers

  datatype VoiceSpeed = Slow | Normal | Fast

  /** `VoiceSpeed.allCases`, in declaration order. */
  const AllCases: seq<VoiceSpeed> := [Slow, Normal, Fast]

  function RawValue(s: VoiceSpeed): (raw: string)
    ensures |raw| > 0 && '_' !in raw
  {
    match s
    case Slow => "slow"
    case Normal => "normal"
    case Fast => "fast"
  }

  function FromRawValue(raw: string): (r: Option<VoiceSpeed>)
    ensures r.Some? ==> RawValue(r.value) == raw
  {
    if raw == "slow" then Some(Slow)
    else if raw == "normal" then Some(Normal)
    else if raw == "fast" then Some(Fast)
    else None
  }

  lemma RawValueRoundTrip(s: VoiceSpeed, raw: string)
    ensures FromRawValue(raw) == Some(s) <==> RawValue(s) == raw
    ensures FromRawValue(raw) == None <==> raw != "slow" && raw != "normal" && raw != "fast"
  {

  }

  lemma RawValueInjective(s: VoiceSpeed, t: VoiceSpeed)
    ensures RawValue(s) == RawValue(t) <==> s == t
  {

  }

  lemma AllCasesComplete(s: VoiceSpeed)
    ensures |AllCases| == 3 && s in AllCases
    ensures forall i, j :: 0 <= i < j < |AllCases| ==> AllCases[i] != AllCases[j]
  {
  }
}
