/**
 * Persistence of one active profile per companion. The user-defaults store is
 * a map from key to profile; a record is kept under
 * "ActiveVoiceProfile_" + the companion's UUID string. JSON encoding is taken
 * to succeed, and a record that would not decode is simply not in the map.
 */
module Storage {
  import opened Wrappers
  import opened Uuids
  import opened Profiles

  type Defaults = map<string, VoiceProfile>

  const KeyPrefix: string := "ActiveVoiceProfile_"

  /** The user-defaults key for a companion's active profile. */
  function ActiveKey(companionID: Uuid): (key: string)
    ensures |key| == |KeyPrefix| + 36 && key[..|KeyPrefix|] == KeyPrefix
  {
    KeyPrefix + UuidString(companionID)
  }

  /** Distinct companions never share a key. */
  lemma ActiveKeyInjective(a: Uuid, b: Uuid)
    ensures ActiveKey(a) == ActiveKey(b) <==> a == b
  {
    assert ActiveKey(a)[|KeyPrefix|..] == UuidString(a);
    assert ActiveKey(b)[|KeyPrefix|..] == UuidString(b);
    UuidStringInjective(a, b);
  }

  /** What `loadActive` finds for a companion in the given store. */
  function LoadFrom(defaults: Defaults, companionID: Uuid): (r: Option<VoiceProfile>)
    ensures r.None? <==> ActiveKey(companionID) !in defaults
    ensures r.Some? ==> r.value in defaults.Values
  {
    var key := ActiveKey(companionID);
    if key in defaults then Some(defaults[key]) else None
  }

  /** The store after `saveActive(p)`. */
  function SaveInto(defaults: Defaults, p: VoiceProfile): (r: Defaults)
    ensures LoadFrom(r, p.companionID) == Some(p)
    ensures r.Keys == defaults.Keys + {ActiveKey(p.companionID)}
  {
    defaults[ActiveKey(p.companionID) := p]
  }

  /** Saving for one companion leaves every other companion's record as it was. */
  lemma SaveFrame(defaults: Defaults, p: VoiceProfile, companionID: Uuid)
    requires companionID != p.companionID
    ensures LoadFrom(SaveInto(defaults, p), companionID) == LoadFrom(defaults, companionID)
  {
    ActiveKeyInjective(companionID, p.companionID);
  }

  /** A second save for the same companion replaces the first. */
  lemma LastWriteWins(defaults: Defaults, p: VoiceProfile, q: VoiceProfile)
    requires p.companionID == q.companionID
    ensures SaveInto(SaveInto(defaults, p), q) == SaveInto(defaults, q)
    ensures LoadFrom(SaveInto(SaveInto(defaults, p), q), p.companionID) == Some(q)
  {
  }

  /** Every record sits under the key of its own companion. */
  ghost predicate WellKeyed(defaults: Defaults)
  {
    forall key :: key in defaults ==> key == ActiveKey(defaults[key].companionID)
  }

  /** In a well-keyed store, a loaded profile belongs to the companion asked for. */
  lemma LoadedBelongsToCompanion(defaults: Defaults, companionID: Uuid)
    ensures WellKeyed(defaults) && LoadFrom(defaults, companionID).Some?
      ==> LoadFrom(defaults, companionID).value.companionID == companionID
  {
    var key := ActiveKey(companionID);
    if WellKeyed(defaults) && key in defaults {
      ActiveKeyInjective(companionID, defaults[key].companionID);
    }
  }

  lemma SavePreservesWellKeyed(defaults: Defaults, p: VoiceProfile)
    ensures WellKeyed(defaults) ==> WellKeyed(SaveInto(defaults, p))
  {
  }

  /** The store after saving each profile of `ps` in turn. */
  function SaveAll(defaults: Defaults, ps: seq<VoiceProfile>): (r: Defaults)
  {
    if ps == [] then defaults else SaveInto(SaveAll(defaults, ps[..|ps| - 1]), ps[|ps| - 1])
  }

  /** The last profile in `ps` that belongs to the companion, if any. */
  function LastSavedFor(ps: seq<VoiceProfile>, companionID: Uuid): (r: Option<VoiceProfile>)
    ensures r.Some? ==> r.value in ps && r.value.companionID == companionID
  {
    if ps == [] then None
    else if ps[|ps| - 1].companionID == companionID then Some(ps[|ps| - 1])
    else LastSavedFor(ps[..|ps| - 1], companionID)
  }

  /**
   * Last write wins over any sequence of saves: a load returns the last profile
   * saved for that companion, or what was there before if none was saved.
   */
  lemma {:induction false} LoadAfterSaves(defaults: Defaults, ps: seq<VoiceProfile>, companionID: Uuid)
    ensures LoadFrom(SaveAll(defaults, ps), companionID)
      == if LastSavedFor(ps, companionID).Some? then LastSavedFor(ps, companionID) else LoadFrom(defaults, companionID)
  {
    if ps != [] {
      var last := ps[|ps| - 1];
      LoadAfterSaves(defaults, ps[..|ps| - 1], companionID);
      if last.companionID != companionID {
        SaveFrame(SaveAll(defaults, ps[..|ps| - 1]), last, companionID);
      }
    }
  }

  /** A store written only through `saveActive`, starting empty, is well keyed. */
  lemma {:induction false} SavesKeepWellKeyed(ps: seq<VoiceProfile>)
    ensures WellKeyed(SaveAll(map[], ps))
  {
    if ps != [] {
      SavesKeepWellKeyed(ps[..|ps| - 1]);
      SavePreservesWellKeyed(SaveAll(map[], ps[..|ps| - 1]), ps[|ps| - 1]);
    }
  }

  /** The shared user-defaults store, as the static `VoiceStorage` methods see it. */
  class VoiceStorage {
    var defaults: Defaults

    /** Writes `p` under its companion's key, overwriting any earlier record. */
    method SaveActive(p: VoiceProfile)
      modifies this
      ensures defaults == SaveInto(old(defaults), p)
      ensures WellKeyed(old(defaults)) ==> WellKeyed(defaults)
    {
      SavePreservesWellKeyed(defaults, p);
      var key := ActiveKey(p.companionID);
      defaults := defaults[key := p];
    }

    /** The record for the companion, or none if nothing is stored under its key. */
    method LoadActive(companionID: Uuid) returns (r: Option<VoiceProfile>)
      ensures r == LoadFrom(defaults, companionID)
      ensures WellKeyed(defaults) && r.Some? ==> r.value.companionID == companionID
    {
      LoadedBelongsToCompanion(defaults, companionID);
      var key := ActiveKey(companionID);
      if key in defaults {
        r := Some(defaults[key]);
      } else {
        r := None;
      }
    }
  }
}
