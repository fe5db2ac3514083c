/**
 * Rule-based inference of an initial voice from facial-feature measurements.
 * Each axis (style, tone, speed) is a first-match-wins chain of strict
 * threshold tests on the features; the axes do not interact. The features are
 * only ever compared with constants, so they are exact reals here.
 */
module Inference {
  import opened Wrappers
  import opened Uuids
  import opened Styles
  import opened Tones
  import opened Speeds
  import opened Profiles
  import Extensions

  /** Four measurements, nominally in [0, 1]; values outside are accepted. */
  datatype FacialFeatures = FacialFeatures(jawSharpness: real, eyeSize: real, softness: real, energy: real)

  function InferStyle(f: FacialFeatures): (style: VoiceStyle)
    ensures style == Energetic || style == Gentle || style == Calm
  {
    if f.energy > 0.7 || f.jawSharpness > 0.7 then Energetic
    else if f.softness > 0.7 then Gentle
    else Calm
  }

  function InferTone(f: FacialFeatures): (tone: VoiceTone)
    ensures tone == Bright || tone == Deep || tone == Neutral
  {
    if f.eyeSize > 0.6 then Bright
    else if f.jawSharpness > 0.7 then Deep
    else Neutral
  }

  function InferSpeed(f: FacialFeatures): (speed: VoiceSpeed)
    ensures speed != Normal ==> f.energy > 0.8 || f.softness > 0.7
  {
    if f.energy > 0.8 then Fast
    else if f.softness > 0.7 then Slow
    else Normal
  }

  /**
   * The initial profile for a companion. The asset folder goes through the
   * "ensure it exists" helper, which hands back the folder it was given.
   */
  function InferProfile(companionID: Uuid, features: FacialFeatures, assetFolderURL: Url): (p: VoiceProfile)
    ensures p.companionID == companionID && p.assetFolderURL == assetFolderURL
    ensures p.style == InferStyle(features) && p.tone == InferTone(features) && p.speed == InferSpeed(features)
  {
    VoiceProfile(
      companionID,
      InferStyle(features),
      InferTone(features),
      InferSpeed(features),
      Extensions.EnsureCompanionAssetFolder(assetFolderURL))
  }

  /** Energetic whenever energy or jaw sharpness exceeds 0.7; gentle only for soft faces otherwise; else calm. */
  lemma StyleRule(f: FacialFeatures)
    ensures InferStyle(f) == Energetic <==> f.energy > 0.7 || f.jawSharpness > 0.7
    ensures InferStyle(f) == Gentle <==> f.energy <= 0.7 && f.jawSharpness <= 0.7 && f.softness > 0.7
    ensures InferStyle(f) == Calm <==> f.energy <= 0.7 && f.jawSharpness <= 0.7 && f.softness <= 0.7
  {
  }

  /** Large eyes win over a sharp jaw. */
  lemma ToneRule(f: FacialFeatures)
    ensures InferTone(f) == Bright <==> f.eyeSize > 0.6
    ensures InferTone(f) == Deep <==> f.eyeSize <= 0.6 && f.jawSharpness > 0.7
    ensures InferTone(f) == Neutral <==> f.eyeSize <= 0.6 && f.jawSharpness <= 0.7
  {
  }

  lemma SpeedRule(f: FacialFeatures)
    ensures InferSpeed(f) == Fast <==> f.energy > 0.8
    ensures InferSpeed(f) == Slow <==> f.energy <= 0.8 && f.softness > 0.7
    ensures InferSpeed(f) == Normal <==> f.energy <= 0.8 && f.softness <= 0.7
  {
  }

  /** A feature exactly at its threshold does not take that branch. */
  lemma ThresholdsAreStrict(f: FacialFeatures)
    ensures f.energy == 0.7 && f.jawSharpness <= 0.7 ==> InferStyle(f) != Energetic
    ensures f.softness == 0.7 ==> InferStyle(f) != Gentle && InferSpeed(f) != Slow
    ensures f.eyeSize == 0.6 ==> InferTone(f) != Bright
    ensures f.eyeSize <= 0.6 && f.jawSharpness == 0.7 ==> InferTone(f) == Neutral
    ensures f.energy == 0.8 ==> InferSpeed(f) != Fast
  {
  }

  /**
   * The axes are independent: tone reads only eye size and jaw sharpness,
   * speed only energy and softness, and style never reads eye size.
   */
  lemma AxesIndependent(f: FacialFeatures, g: FacialFeatures)
    ensures f.eyeSize == g.eyeSize && f.jawSharpness == g.jawSharpness ==> InferTone(f) == InferTone(g)
    ensures f.energy == g.energy && f.softness == g.softness ==> InferSpeed(f) == InferSpeed(g)
    ensures f.energy == g.energy && f.jawSharpness == g.jawSharpness && f.softness == g.softness
      ==> InferStyle(f) == InferStyle(g)
  {
  }

  /** Jaw 0.8, eyes 0.5, softness 0.3, energy 0.9: energetic, deep, fast. */
  lemma SharpEnergeticFace(companionID: Uuid, folder: Url)
    ensures var p := InferProfile(companionID, FacialFeatures(0.8, 0.5, 0.3, 0.9), folder);
      p.style == Energetic && p.tone == Deep && p.speed == Fast
  {
  }

  /**
   * Against the fourteen-case tone declaration, inference yields tones that are
   * not declared: a face with eye size 0.7 gets "bright", which names no
   * declared case.
   */
  lemma BrightToneIsUndeclared()
    ensures InferTone(FacialFeatures(0.0, 0.7, 0.0, 0.0)) == Bright
    ensures Tones.DeclaredFromRawValue(Tones.RawValue(InferTone(FacialFeatures(0.0, 0.7, 0.0, 0.0)))) == None
  {

  }

  /** With the five-case tone type, every inferred tone is a case and survives a raw-value round trip. */
  lemma InferredToneRoundTrips(f: FacialFeatures)
    ensures InferTone(f) in Tones.AllCases
    ensures Tones.FromRawValue(Tones.RawValue(InferTone(f))) == Some(InferTone(f))
  {

  }
}
