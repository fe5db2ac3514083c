/**
 * Tones. The pitch table and the editor labels switch over five tones:
 * bright, deep, husky, soft and neutral; inference produces three of them
 * (bright, deep, neutral). The enum declaration itself lists fourteen tones in
 * four groups (basic pitch, communication context, vocal register, and a
 * neutral default), of which only `neutral` is one of the five. `VoiceTone` is
 * the five-case type the rest of the model uses; `DeclaredVoiceTone` is the
 * fourteen-case declaration as written.
 */
module Tones {
  import opened Wrappers

  datatype VoiceTone = Bright | Deep | Husky | Soft | Neutral

  const AllCases: seq<VoiceTone> := [Bright, Deep, Husky, Soft, Neutral]

  function RawValue(t: VoiceTone): (raw: string)
    ensures |raw| > 0 && '_' !in raw
  {
    match t
    case Bright => "bright"
    case Deep => "deep"
    case Husky => "husky"
    case Soft => "soft"
    case Neutral => "neutral"
  }

  function FromRawValue(raw: string): (r: Option<VoiceTone>)
    ensures r.Some? ==> RawValue(r.value) == raw
  {
    if raw == "bright" then Some(Bright)
    else if raw == "deep" then Some(Deep)
    else if raw == "husky" then Some(Husky)
    else if raw == "soft" then Some(Soft)
    else if raw == "neutral" then Some(Neutral)
    else None
  }

  lemma RawValueRoundTrip(t: VoiceTone, raw: string)
    ensures FromRawValue(raw) == Some(t) <==> RawValue(t) == raw
    ensures FromRawValue(raw) == None <==> forall u :: RawValue(u) != raw
  {

  }

  lemma RawValueInjective(t: VoiceTone, u: VoiceTone)
    ensures RawValue(t) == RawValue(u) <==> t == u
  {

  }

  lemma AllCasesComplete(t: VoiceTone)
    ensures |AllCases| == 5 && t in AllCases
    ensures forall i, j :: 0 <= i < j < |AllCases| ==> AllCases[i] != AllCases[j]
  {
  }

  /** The fourteen cases of the `VoiceTone` enum declaration, in order. */
  datatype DeclaredVoiceTone =
    | High | Low
    | Authoritative | Friendly | Formal | Empathetic | Enthusiastic
    | Soprano | MezzoSoprano | Alto
    | Tenor | Baritone | Bass
    | DeclaredNeutral

  const DeclaredCases: seq<DeclaredVoiceTone> :=
    [High, Low, Authoritative, Friendly, Formal, Empathetic, Enthusiastic,
     Soprano, MezzoSoprano, Alto, Tenor, Baritone, Bass, DeclaredNeutral]

  function DeclaredRawValue(t: DeclaredVoiceTone): (raw: string)
    ensures |raw| > 0 && '_' !in raw
  {
    match t
    case High => "high"
    case Low => "low"
    case Authoritative => "authoritative"
    case Friendly => "friendly"
    case Formal => "formal"
    case Empathetic => "empathetic"
    case Enthusiastic => "enthusiastic"
    case Soprano => "soprano"
    case MezzoSoprano => "mezzoSoprano"
    case Alto => "alto"
    case Tenor => "tenor"
    case Baritone => "baritone"
    case Bass => "bass"
    case DeclaredNeutral => "neutral"
  }

  function DeclaredFromRawValue(raw: string): (r: Option<DeclaredVoiceTone>)
    ensures r.Some? ==> DeclaredRawValue(r.value) == raw
  {
    if raw == "high" then Some(High)
    else if raw == "low" then Some(Low)
    else if raw == "authoritative" then Some(Authoritative)
    else if raw == "friendly" then Some(Friendly)
    else if raw == "formal" then Some(Formal)
    else if raw == "empathetic" then Some(Empathetic)
    else if raw == "enthusiastic" then Some(Enthusiastic)
    else if raw == "soprano" then Some(Soprano)
    else if raw == "mezzoSoprano" then Some(MezzoSoprano)
    else if raw == "alto" then Some(Alto)
    else if raw == "tenor" then Some(Tenor)
    else if raw == "baritone" then Some(Baritone)
    else if raw == "bass" then Some(Bass)
    else if raw == "neutral" then Some(DeclaredNeutral)
    else None
  }

  lemma DeclaredRawValueRoundTrip(t: DeclaredVoiceTone, raw: string)
    ensures DeclaredFromRawValue(raw) == Some(t) <==> DeclaredRawValue(t) == raw
    ensures DeclaredFromRawValue(raw) == None <==> forall u :: DeclaredRawValue(u) != raw
  {

  }

  lemma DeclaredRawValueInjective(t: DeclaredVoiceTone, u: DeclaredVoiceTone)
    ensures DeclaredRawValue(t) == DeclaredRawValue(u) <==> t == u
  {

  }

  lemma DeclaredCasesComplete(t: DeclaredVoiceTone)
    ensures |DeclaredCases| == 14 && t in DeclaredCases
    ensures forall i, j :: 0 <= i < j < |DeclaredCases| ==> DeclaredCases[i] != DeclaredCases[j]
  {
  }

  /**
   * The two tone vocabularies share exactly one name, "neutral": every other
   * tone the logic produces (bright, deep, husky, soft) names no declared case.
   */
  lemma OnlyNeutralIsDeclared(t: VoiceTone)
    ensures DeclaredFromRawValue(RawValue(t)).Some? <==> t == Neutral
    ensures DeclaredFromRawValue(RawValue(t)) == Some(DeclaredNeutral) <==> t == Neutral
  {

  }
}
