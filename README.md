# CompanionVoiceSDK: the active voice profile and its inference, in Dafny

This project models the core of CompanionVoiceSDK. That core manages one voice profile per
companion: a style, a tone, a speed and an asset folder, attached to the companion's UUID.
It has four parts:

- **Inference** (`Inference`). It derives an initial profile from four facial-feature
  measurements: jaw sharpness, eye size, softness and energy. Each axis is a first-match-wins
  chain of strict threshold tests.
- **The store** (`Storage`). `VoiceStorage` keeps one profile per companion in user
  defaults, under the key `"ActiveVoiceProfile_" + uuidString`. `VoiceRepository`
  (`Repository`) forwards to it.
- **The registry** (`Manager`). `VoiceManager` holds the single active profile in memory.
  Bootstrap and switch reload it from the store. Set writes it through to the store. Get
  reads it.
- **Enumerations and helpers.** These are the style, tone, speed and error enumerations with
  their raw names and messages (`Styles`, `Tones`, `Speeds`, `VoiceErrors`). `Extensions`
  holds the `style_tone_speed.m4a` file name, the speed-to-rate and tone-to-pitch tables, and
  the asset-folder "ensure".

`Profiles` defines `VoiceProfile`. That type is not among the modelled files; its fields
follow the places where the SDK constructs it. `Uuids` models Foundation's `uuidString`
(upper-case hexadecimal, grouped 8-4-4-4-12) and proves it injective. From that, distinct
companions get distinct storage keys. `Editor` models the two decisions of the editor
screen. `Scenarios` holds client code that relies only on the contracts. Two of its methods,
`StorageSaveAndLoad` and `SwitchCompanion`, follow the SDK's unit tests; `SwitchCompanion`
adds a final switch back to the first companion, one step past the test. The other three
state further properties of the same operations.

The user-defaults store is an object holding a `map<string, VoiceProfile>`. `LoadFrom` and
`SaveInto` are the pure functions that specify a load and a save over that map. The source
reaches the store through static methods of `VoiceStorage` over `UserDefaults.standard`.
Here the manager and the repository each hold a reference to one `VoiceStorage` object,
which plays that global role.

Tones: the enum declaration in `VoiceTone.swift` lists fourteen tones in four groups: basic
pitch (high, low), communication context (authoritative to enthusiastic), vocal register
(soprano to bass) and a neutral default. The pitch table and the editor labels switch over
a different five: bright, deep, husky, soft and neutral. Inference produces three of those
five: bright, deep and neutral. The model follows the code that uses tones. `Tones.VoiceTone`
has the five cases. `Tones.DeclaredVoiceTone` keeps the fourteen-case declaration, with its
raw names. See "## Findings".

`VoiceManager` calls `VoiceStorage` directly (VoiceManager.swift:38, 51, 56), although its
header lists VoiceRepository.swift as a dependency (VoiceManager.swift:16); the model does the
same. The two routes have the same effect, because `Repository.VoiceRepository.SaveActive`
and `LoadActive` are proved to act exactly like the store's methods.

## Model

| member | source | states |
|---|---|---|
| `Styles.RawValue` | Sources/CompanionVoiceSDK/Models/VoiceStyle.swift:25-34 | every raw name is non-empty and contains no `_` |
| `Styles.FromRawValue` | Sources/CompanionVoiceSDK/Models/VoiceStyle.swift:25 | whatever a string decodes to has that string as its raw name |
| `Styles.RawValueRoundTrip` | Sources/CompanionVoiceSDK/Models/VoiceStyle.swift:25-34 | a string decodes to a case exactly when it is that case's raw name; a string that is none of the eight names decodes to nothing |
| `Styles.RawValueInjective` | Sources/CompanionVoiceSDK/Models/VoiceStyle.swift:26-33 | distinct styles have distinct raw names |
| `Styles.AllCasesComplete` | Sources/CompanionVoiceSDK/Models/VoiceStyle.swift:25-34 | `allCases` has eight distinct entries and contains every style |
| `Tones.RawValue` | Sources/CompanionVoiceSDK/Utilities/VoiceExtensions.swift:65-71 | every raw name of the five tones the logic uses is non-empty and contains no `_` |
| `Tones.FromRawValue` | Sources/CompanionVoiceSDK/Models/VoiceTone.swift:25 | whatever a string decodes to has that string as its raw name |
| `Tones.RawValueRoundTrip` | Sources/CompanionVoiceSDK/Models/VoiceTone.swift:25 | with the `String, Codable` conformance over the five tones the pitch table uses (VoiceExtensions.swift:65-71), a string decodes to a tone exactly when it is that tone's raw name; other strings decode to nothing |
| `Tones.RawValueInjective` | Sources/CompanionVoiceSDK/Models/VoiceTone.swift:25 | distinct tones among the five (VoiceExtensions.swift:65-71) have distinct raw names |
| `Tones.AllCasesComplete` | Sources/CompanionVoiceSDK/Models/VoiceTone.swift:25 | `allCases` of the five-case type (the cases of VoiceProfileEditor.swift:169-175) has five distinct entries and contains every tone |
| `Tones.DeclaredRawValue` | Sources/CompanionVoiceSDK/Models/VoiceTone.swift:25-49 | every raw name of the fourteen declared tones is non-empty and contains no `_` |
| `Tones.DeclaredFromRawValue` | Sources/CompanionVoiceSDK/Models/VoiceTone.swift:25 | whatever a string decodes to has that string as its raw name |
| `Tones.DeclaredRawValueRoundTrip` | Sources/CompanionVoiceSDK/Models/VoiceTone.swift:25-49 | a string decodes to a declared tone exactly when it is that tone's raw name; other strings decode to nothing |
| `Tones.DeclaredRawValueInjective` | Sources/CompanionVoiceSDK/Models/VoiceTone.swift:27-48 | distinct declared tones have distinct raw names |
| `Tones.DeclaredCasesComplete` | Sources/CompanionVoiceSDK/Models/VoiceTone.swift:25-49 | the declaration has fourteen distinct cases and lists every declared tone |
| `Tones.OnlyNeutralIsDeclared` | Sources/CompanionVoiceSDK/Models/VoiceTone.swift:48 | of the five tones the logic uses, only `neutral` names a declared case, and it names the declared `neutral` |
| `Speeds.RawValue` | Sources/CompanionVoiceSDK/Models/VoiceSpeed.swift:24-28 | every raw name is non-empty and contains no `_` |
| `Speeds.FromRawValue` | Sources/CompanionVoiceSDK/Models/VoiceSpeed.swift:24 | whatever a string decodes to has that string as its raw name |
| `Speeds.RawValueRoundTrip` | Sources/CompanionVoiceSDK/Models/VoiceSpeed.swift:24-28 | a string decodes to a speed exactly when it is that speed's raw name; any string other than "slow", "normal" or "fast" decodes to nothing |
| `Speeds.RawValueInjective` | Sources/CompanionVoiceSDK/Models/VoiceSpeed.swift:25-27 | distinct speeds have distinct raw names |
| `Speeds.AllCasesComplete` | Sources/CompanionVoiceSDK/Models/VoiceSpeed.swift:24-28 | `allCases` has three distinct entries and contains every speed |
| `VoiceErrors.Message` | Sources/CompanionVoiceSDK/Errors/VoiceError.swift:32-39 | every error has a non-empty message |
| `VoiceErrors.MessageInjective` | Sources/CompanionVoiceSDK/Errors/VoiceError.swift:34-37 | two errors have the same message only if they are the same error |
| `VoiceErrors.AllCasesComplete` | Sources/CompanionVoiceSDK/Errors/VoiceError.swift:26-30 | there are exactly four distinct errors |
| `Uuids.HexBytesRoundTrip` | Sources/CompanionVoiceSDK/Storage/VoiceStorage.swift:29 | reading back the hexadecimal digits of a byte string gives the bytes |
| `Uuids.UuidString` | Sources/CompanionVoiceSDK/Storage/VoiceStorage.swift:29 | a `uuidString` is always 36 characters long |
| `Uuids.UuidStringRoundTrip` | Sources/CompanionVoiceSDK/Storage/VoiceStorage.swift:29 | a `uuidString` has hyphens at positions 8, 13, 18 and 23, and the sixteen bytes of the UUID can be read back from it |
| `Uuids.UuidStringInjective` | Sources/CompanionVoiceSDK/Storage/VoiceStorage.swift:29 | two UUIDs have the same `uuidString` exactly when they are equal |
| `Extensions.Filename` | Sources/CompanionVoiceSDK/Utilities/VoiceExtensions.swift:33-35 | the file name always ends in `.m4a` and has more before it |
| `Extensions.FilenameIgnoresIdentity` | Sources/CompanionVoiceSDK/Utilities/VoiceExtensions.swift:34 | profiles with the same style, tone and speed get the same file name, whatever their companion and folder |
| `Extensions.FilenameInjective` | Sources/CompanionVoiceSDK/Utilities/VoiceExtensions.swift:34 | two profiles get the same file name exactly when style, tone and speed all agree |
| `Extensions.EnergeticBrightFastFilename` | Sources/CompanionVoiceSDK/Tests/TestsCompanionVoiceSDKTests.swift:43-53 | energetic, bright, fast gives `energetic_bright_fast.m4a`, which starts with `energetic_bright_fast` |
| `Extensions.EnsureCompanionAssetFolder` | Sources/CompanionVoiceSDK/Utilities/VoiceExtensions.swift:39-45 | the folder returned is the folder given |
| `Extensions.EnsureIdempotent` | Sources/CompanionVoiceSDK/Utilities/VoiceExtensions.swift:39-45 | ensuring a folder twice returns the same as ensuring it once |
| `Extensions.MapSpeedToRate` | Sources/CompanionVoiceSDK/Utilities/VoiceExtensions.swift:55-61 | every rate lies between 0.40 and 0.65 |
| `Extensions.RateIncreasesWithSpeed` | Sources/CompanionVoiceSDK/Utilities/VoiceExtensions.swift:55-61 | rates strictly increase along slow, normal, fast; slow is 0.40 |
| `Extensions.MapToneToPitch` | Sources/CompanionVoiceSDK/Utilities/VoiceExtensions.swift:64-72 | every tone has a pitch, between 0.85 and 1.20 |
| `Extensions.PitchExtremes` | Sources/CompanionVoiceSDK/Utilities/VoiceExtensions.swift:64-72 | the pitch is 1.20 exactly for bright, 0.85 exactly for deep and 1.00 exactly for neutral |
| `Extensions.PitchInjective` | Sources/CompanionVoiceSDK/Utilities/VoiceExtensions.swift:65-71 | distinct tones have distinct pitches |
| `Inference.InferStyle` | Sources/CompanionVoiceSDK/Services/VoiceInference.swift:49-53 | inference only ever gives the styles energetic, gentle or calm |
| `Inference.InferTone` | Sources/CompanionVoiceSDK/Services/VoiceInference.swift:55-59 | inference only ever gives the tones bright, deep or neutral |
| `Inference.InferSpeed` | Sources/CompanionVoiceSDK/Services/VoiceInference.swift:61-65 | a speed other than normal needs energy above 0.8 or softness above 0.7 |
| `Inference.InferProfile` | Sources/CompanionVoiceSDK/Services/VoiceInference.swift:44-74 | the profile carries the given companion and the given asset folder unchanged, with one inferred value per axis |
| `Inference.StyleRule` | Sources/CompanionVoiceSDK/Services/VoiceInference.swift:50-52 | energetic exactly when energy or jaw sharpness exceeds 0.7, whatever the rest; gentle exactly when neither does and softness exceeds 0.7; calm otherwise |
| `Inference.ToneRule` | Sources/CompanionVoiceSDK/Services/VoiceInference.swift:56-58 | bright exactly when eye size exceeds 0.6, even with a sharp jaw; deep exactly when it does not and jaw sharpness exceeds 0.7; neutral otherwise |
| `Inference.SpeedRule` | Sources/CompanionVoiceSDK/Services/VoiceInference.swift:62-64 | fast exactly when energy exceeds 0.8; slow exactly when it does not and softness exceeds 0.7; normal otherwise |
| `Inference.ThresholdsAreStrict` | Sources/CompanionVoiceSDK/Services/VoiceInference.swift:50-63 | a feature exactly at 0.7, 0.6 or 0.8 does not take its branch; for example, energy 0.7 alone does not give energetic |
| `Inference.AxesIndependent` | Sources/CompanionVoiceSDK/Services/VoiceInference.swift:49-65 | tone depends only on eye size and jaw sharpness, speed only on energy and softness, and style never on eye size |
| `Inference.SharpEnergeticFace` | Sources/CompanionVoiceSDK/Tests/TestsCompanionVoiceSDKTests.swift:60-66 | features (0.8, 0.5, 0.3, 0.9) give energetic, deep, fast |
| `Inference.BrightToneIsUndeclared` | Sources/CompanionVoiceSDK/Services/VoiceInference.swift:56 | eye size 0.7 gives bright, whose raw name decodes to none of the fourteen declared tones |
| `Inference.InferredToneRoundTrips` | Sources/CompanionVoiceSDK/Services/VoiceInference.swift:55-59 | with the five-case tone type, every inferred tone is a case and survives a raw-name round trip |
| `Storage.ActiveKey` | Sources/CompanionVoiceSDK/Storage/VoiceStorage.swift:28-30 | the key is `ActiveVoiceProfile_` followed by 36 characters |
| `Storage.ActiveKeyInjective` | Sources/CompanionVoiceSDK/Storage/VoiceStorage.swift:28-30 | two companions share a key exactly when they are the same companion |
| `Storage.LoadFrom` | Sources/CompanionVoiceSDK/Storage/VoiceStorage.swift:39-46 | a load finds nothing exactly when no record is stored under the companion's key; otherwise it returns a stored record |
| `Storage.SaveInto` | Sources/CompanionVoiceSDK/Storage/VoiceStorage.swift:32-37 | after a save, a load for the profile's companion returns the profile; only that companion's key is added |
| `Storage.SaveFrame` | Sources/CompanionVoiceSDK/Storage/VoiceStorage.swift:33-35 | a save leaves every other companion's load unchanged |
| `Storage.LastWriteWins` | Sources/CompanionVoiceSDK/Storage/VoiceStorage.swift:32-36 | two saves for one companion leave the store as the second save alone would; a load returns the second profile |
| `Storage.LoadedBelongsToCompanion` | Sources/CompanionVoiceSDK/Storage/VoiceStorage.swift:33-42 | in a store where every record sits under its own companion's key, a loaded profile belongs to the companion asked for |
| `Storage.SavePreservesWellKeyed` | Sources/CompanionVoiceSDK/Storage/VoiceStorage.swift:32-36 | a save keeps every record under its own companion's key |
| `Storage.LastSavedFor` | Sources/CompanionVoiceSDK/Storage/VoiceStorage.swift:32-36 | the last profile saved for a companion was saved, and for that companion |
| `Storage.LoadAfterSaves` | Sources/CompanionVoiceSDK/Storage/VoiceStorage.swift:32-46 | after any sequence of saves, a load returns the last profile saved for that companion, or the earlier record if none was saved |
| `Storage.SavesKeepWellKeyed` | Sources/CompanionVoiceSDK/Storage/VoiceStorage.swift:32-36 | a store written only by saves, starting empty, keeps every record under its own companion's key |
| `Storage.VoiceStorage.SaveActive` | Sources/CompanionVoiceSDK/Storage/VoiceStorage.swift:32-37 | the new store is the old one with the profile saved under its companion's key; a well-keyed store stays well keyed |
| `Storage.VoiceStorage.LoadActive` | Sources/CompanionVoiceSDK/Storage/VoiceStorage.swift:39-46 | returns the stored record or none and does not change the store; in a well-keyed store the record belongs to the companion asked for |
| `Repository.VoiceRepository.constructor` | Sources/CompanionVoiceSDK/Storage/VoiceRepository.swift:28-29 | a repository holds nothing but the store it forwards to |
| `Repository.VoiceRepository.SaveActive` | Sources/CompanionVoiceSDK/Storage/VoiceRepository.swift:31-33 | has exactly the effect of the store's save |
| `Repository.VoiceRepository.LoadActive` | Sources/CompanionVoiceSDK/Storage/VoiceRepository.swift:35-37 | returns exactly what the store's load returns |
| `Manager.VoiceManager.constructor` | Sources/CompanionVoiceSDK/Managers/VoiceManager.swift:31-34 | a new registry has no active profile |
| `Manager.VoiceManager.BootstrapActiveVoice` | Sources/CompanionVoiceSDK/Managers/VoiceManager.swift:37-43 | the active profile becomes the stored record for the companion, or none, whatever was active before; the store is unchanged; memory and store then agree |
| `Manager.VoiceManager.GetActiveVoice` | Sources/CompanionVoiceSDK/Managers/VoiceManager.swift:45-47 | returns the active profile and changes nothing |
| `Manager.VoiceManager.SetActiveVoice` | Sources/CompanionVoiceSDK/Managers/VoiceManager.swift:49-52 | the profile becomes active and is saved under its companion's key, other records untouched; memory and store agree afterwards |
| `Manager.VoiceManager.SwitchCompanion` | Sources/CompanionVoiceSDK/Managers/VoiceManager.swift:55-57 | the same transition as bootstrap: the stored record or none, store unchanged |
| `Editor.InitialSelection` | Sources/CompanionVoiceSDK/Views/VoiceProfileEditor.swift:54-57 | the pickers start from the given profile, else the active voice, else gentle, neutral, normal |
| `Editor.CommitEdited` | Sources/CompanionVoiceSDK/Views/VoiceProfileEditor.swift:145-148 | setting the active voice and then saving it again through the repository ends as setting it alone would |
| `Scenarios.StorageSaveAndLoad` | Sources/CompanionVoiceSDK/Tests/TestsCompanionVoiceSDKTests.swift:28-41 | whatever the store held, a save followed by a load for the same companion returns the saved profile |
| `Scenarios.RepositorySaveAndLoad` | Sources/CompanionVoiceSDK/Storage/VoiceRepository.swift:28-37 | a save through one repository is returned by a load through another, so two repositories are interchangeable |
| `Scenarios.SetThenGet` | Sources/CompanionVoiceSDK/Managers/VoiceManager.swift:45-51 | after setting a profile, reading the active voice returns that profile |
| `Scenarios.SwitchCompanion` | Sources/CompanionVoiceSDK/Tests/TestsCompanionVoiceSDKTests.swift:68-79 | after a save for id1, bootstrapping id1 makes exactly the saved calm profile active; switching to id2, which has no record, leaves none active; a further switch back to id1, beyond the test, restores it |
| `Scenarios.SwitchMatchesBootstrap` | Sources/CompanionVoiceSDK/Managers/VoiceManager.swift:37-57 | switching to a companion and bootstrapping it give the same active profile, the stored record |

## Left out

- File-system effects are not modelled. Creating the asset directory in `ensureCompanionAssetFolder` (VoiceExtensions.swift:40-43) is dropped, so ensure is the identity on the path. `defaultAssetFolder`, which looks up the Documents directory, is not part of this model.
- JSON encoding and decoding and `UserDefaults` are replaced by a map from key to profile. A record that would not decode is simply absent from the map.
- Storage.VoiceStorage.SaveActive: always writes. The source skips the write when JSON encoding fails, and that cannot happen for a well-formed profile.
- `Float` arithmetic is not modelled. Features, rates and pitches are exact reals, so a literal such as `Float(0.7)` is not rounded.
- The singleton `VoiceManager.shared` and the static `VoiceStorage` are not modelled as globals. Each is an ordinary object, and the manager and repository take the store as a constructor argument. Thread safety and interleaving are not modelled.
- Generating a fresh UUID with `UUID()` is not modelled. Identities are parameters. The switch scenario requires that the second companion has no record, which is what a fresh UUID gives in the test.
- The editor's SwiftUI form, speech preview, audio generation callback and overlay speech are left out. Only the initial selection and the commit are modelled.
- `VoiceGenerator`, `CompanionOverlay` and `EmotionType` are not part of this model.
- Inference.InferSpeed: its own contract states only a necessary condition. `Inference.SpeedRule` states the full rule.

## Findings

| source | as written | input that shows it | evidently intended | confidence | as-written member | corrected member |
|---|---|---|---|---|---|---|
| Sources/CompanionVoiceSDK/Models/VoiceTone.swift:25-49 | the tone enum declares fourteen cases (high, low, …, bass, neutral) and no bright, deep, husky or soft; yet the pitch table (VoiceExtensions.swift:66-69) and the editor labels (VoiceProfileEditor.swift:171-174) switch over all four, and inference (VoiceInference.swift:56-57) returns two of them, bright and deep. As written this is a build-time inconsistency: the `switch` at VoiceExtensions.swift:65-71 names cases the enum lacks and has no `default`, so the Swift does not compile | the lemma models the inconsistency on names: features with eye size 0.7 lead inference to `bright`, and the raw name "bright" decodes to none of the declared cases | a tone type with the five cases bright, deep, husky, soft and neutral, over which the pitch table is total | high; not executed | `Inference.BrightToneIsUndeclared` | `Inference.InferredToneRoundTrips` |
