/** Helpers shared by generation, inference and preview. */
module Extensions {
  import Styles
  import Tones
  import Speeds
  import opened Profiles

  const Extension: string := ".m4a"

  /** The audio file name for a profile: `style_tone_speed.m4a`. */
  function Filename(p: VoiceProfile): (name: string)
    ensures |name| > |Extension| && name[|name| - |Extension|..] == Extension
  {
    Styles.RawValue(p.style) + "_" + Tones.RawValue(p.tone) + "_" + Speeds.RawValue(p.speed) + Extension
  }

  /**
   * Makes sure the companion's asset folder exists and returns it. Creating the
   * directory is a file-system effect outside the model; what remains is that
   * the folder handed in is the folder handed back.
   */
  function EnsureCompanionAssetFolder(baseFolder: Url): (folder: Url)
    ensures folder == baseFolder
  {
    baseFolder
  }

  /** The `AVSpeechUtterance.rate` for a speed. */
  function MapSpeedToRate(speed: Speeds.VoiceSpeed): (rate: real)
    ensures 0.40 <= rate <= 0.65
  {
    match speed
    case Slow => 0.40
    case Normal => 0.50
    case Fast => 0.65
  }

  /** The `AVSpeechUtterance.pitchMultiplier` for a tone. */
  function MapToneToPitch(tone: Tones.VoiceTone): (pitch: real)
    ensures 0.85 <= pitch <= 1.20
  {
    match tone
    case Bright => 1.20
    case Deep => 0.85
    case Husky => 0.95
    case Soft => 1.05
    case Neutral => 1.00
  }

  /** A prefix free of `sep`, followed by `sep`, can be read back off the string. */
  lemma SplitAtSeparator(a: string, x: string, b: string, y: string, sep: char)
    requires sep !in a && sep !in b
    requires a + [sep] + x == b + [sep] + y
    ensures a == b && x == y
  {
    var s := a + [sep] + x;
    // `sep` first occurs in `s` at index |a|, and also at index |b|.
    assert forall i :: 0 <= i < |a| ==> s[i] == a[i] != sep;
    assert forall i :: 0 <= i < |b| ==> s[i] == b[i] != sep;
    assert s[|a|] == sep && s[|b|] == sep;
    assert |a| == |b|;
    assert a == s[..|a|] == b;
    assert x == s[|a| + 1..] == y;
  }

  /** Three underscore-free names joined by underscores, plus the extension, determine the names. */
  lemma JoinInjective(s1: string, t1: string, v1: string, s2: string, t2: string, v2: string)
    requires '_' !in s1 && '_' !in t1 && '_' !in s2 && '_' !in t2
    requires s1 + "_" + t1 + "_" + v1 + Extension == s2 + "_" + t2 + "_" + v2 + Extension
    ensures s1 == s2 && t1 == t2 && v1 == v2
  {
    assert s1 + "_" + t1 + "_" + v1 + Extension == s1 + ['_'] + (t1 + "_" + v1 + Extension);
    assert s2 + "_" + t2 + "_" + v2 + Extension == s2 + ['_'] + (t2 + "_" + v2 + Extension);
    SplitAtSeparator(s1, t1 + "_" + v1 + Extension, s2, t2 + "_" + v2 + Extension, '_');
    assert t1 + "_" + v1 + Extension == t1 + ['_'] + (v1 + Extension);
    assert t2 + "_" + v2 + Extension == t2 + ['_'] + (v2 + Extension);
    SplitAtSeparator(t1, v1 + Extension, t2, v2 + Extension, '_');
    assert v1 == (v1 + Extension)[..|v1|];
    assert v2 == (v2 + Extension)[..|v2|];
  }

  /** The file name depends on the style, tone and speed, and on nothing else. */
  lemma FilenameIgnoresIdentity(p: VoiceProfile, q: VoiceProfile)
    requires p.style == q.style && p.tone == q.tone && p.speed == q.speed
    ensures Filename(p) == Filename(q)
  {
  }

  /** Distinct (style, tone, speed) settings get distinct file names. */
  lemma FilenameInjective(p: VoiceProfile, q: VoiceProfile)
    ensures Filename(p) == Filename(q) <==> p.style == q.style && p.tone == q.tone && p.speed == q.speed
  {
    if Filename(p) == Filename(q) {
      JoinInjective(Styles.RawValue(p.style), Tones.RawValue(p.tone), Speeds.RawValue(p.speed),
                    Styles.RawValue(q.style), Tones.RawValue(q.tone), Speeds.RawValue(q.speed));
      Styles.RawValueInjective(p.style, q.style);
      Tones.RawValueInjective(p.tone, q.tone);
      Speeds.RawValueInjective(p.speed, q.speed);
    }
  }

  lemma EnergeticBrightFastFilename(p: VoiceProfile)
    requires p.style == Styles.Energetic && p.tone == Tones.Bright && p.speed == Speeds.Fast
    ensures Filename(p) == "energetic_bright_fast.m4a"
    ensures Filename(p)[..21] == "energetic_bright_fast"
  {
  }

  /** Ensuring the folder twice is the same as ensuring it once. */
  lemma EnsureIdempotent(folder: Url)
    ensures EnsureCompanionAssetFolder(EnsureCompanionAssetFolder(folder)) == EnsureCompanionAssetFolder(folder)
  {
  }

  /** Slower speeds get strictly lower rates, in declaration order. */
  lemma RateIncreasesWithSpeed()
    ensures forall i, j :: 0 <= i < j < |Speeds.AllCases| ==>
      MapSpeedToRate(Speeds.AllCases[i]) < MapSpeedToRate(Speeds.AllCases[j])
    ensures MapSpeedToRate(Speeds.Slow) == 0.40
  {
  }

  /** Bright is the unique highest pitch, deep the unique lowest, neutral unscaled. */
  lemma PitchExtremes(t: Tones.VoiceTone)
    ensures MapToneToPitch(t) == 1.20 <==> t == Tones.Bright
    ensures MapToneToPitch(t) == 0.85 <==> t == Tones.Deep
    ensures MapToneToPitch(t) == 1.00 <==> t == Tones.Neutral
  {
  }

  /** Distinct tones are spoken at distinct pitches. */
  lemma PitchInjective(t: Tones.VoiceTone, u: Tones.VoiceTone)
    ensures MapToneToPitch(t) == MapToneToPitch(u) <==> t == u
  {
  }
}
