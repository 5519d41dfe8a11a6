/**
 * The persisted update preferences (packages/electron/src/main/store/updateSettings.ts):
 * one `updateConfig` record, read with a default, overwritten by a shallow merge,
 * reset, and consulted to decide whether a version is skipped and whether it is
 * time to check for updates again.
 *
 * The electron-store behind the record is an in-memory field; `Date.now()` is a
 * parameter.
 */
module UpdateSettings {
  import opened Wrappers

  datatype CheckInterval = Startup | Daily | Weekly

  datatype UpdateConfig = UpdateConfig(
    autoCheck: bool,
    autoDownload: bool,
    checkInterval: CheckInterval,
    includePrerelease: bool,
    lastCheckTime: int,
    skippedVersion: Option<string>)

  /** `Partial<UpdateConfig>`: a field is `Some` exactly when the key is present. */
  datatype ConfigPatch = ConfigPatch(
    autoCheck: Option<bool>,
    autoDownload: Option<bool>,
    checkInterval: Option<CheckInterval>,
    includePrerelease: Option<bool>,
    lastCheckTime: Option<int>,
    skippedVersion: Option<string>)

  /** DEFAULT_UPDATE_CONFIG. */
  const Default: UpdateConfig := UpdateConfig(true, true, Startup, false, 0, None)

  const NoChanges: ConfigPatch := ConfigPatch(None, None, None, None, None, None)

  const DayMs: int := 24 * 60 * 60 * 1000
  const WeekMs: int := 7 * 24 * 60 * 60 * 1000

  /** `{ ...current, ...updates }`. */
  function Merge(c: UpdateConfig, u: ConfigPatch): UpdateConfig {
    UpdateConfig(
      u.autoCheck.GetOr(c.autoCheck),
      u.autoDownload.GetOr(c.autoDownload),
      u.checkInterval.GetOr(c.checkInterval),
      u.includePrerelease.GetOr(c.includePrerelease),
      u.lastCheckTime.GetOr(c.lastCheckTime),
      if u.skippedVersion.Some? then u.skippedVersion else c.skippedVersion)
  }

  /** Two patches applied one after the other, as a single patch: the later key wins. */
  function Then(u: ConfigPatch, v: ConfigPatch): ConfigPatch {
    ConfigPatch(
      if v.autoCheck.Some? then v.autoCheck else u.autoCheck,
      if v.autoDownload.Some? then v.autoDownload else u.autoDownload,
      if v.checkInterval.Some? then v.checkInterval else u.checkInterval,
      if v.includePrerelease.Some? then v.includePrerelease else u.includePrerelease,
      if v.lastCheckTime.Some? then v.lastCheckTime else u.lastCheckTime,
      if v.skippedVersion.Some? then v.skippedVersion else u.skippedVersion)
  }

  /** Whether `shouldSkipVersion(version)` holds for the record `c`. */
  predicate SkipsVersion(c: UpdateConfig, version: string) {
    c.skippedVersion == Some(version)
  }

  /** The record `clearSkippedVersion` writes, when it writes one (only for a truthy skipped version). */
  function Cleared(c: UpdateConfig): Option<UpdateConfig> {
    if c.skippedVersion.Some? && c.skippedVersion.value != "" then Some(c.(skippedVersion := None))
    else None
  }

  /** `shouldCheckForUpdates` on the record `c`, at time `now` (milliseconds). */
  predicate ShouldCheck(c: UpdateConfig, now: int) {
    if !c.autoCheck then false
    else match c.checkInterval
      case Startup => true
      case Daily => now - c.lastCheckTime > DayMs
      case Weekly => now - c.lastCheckTime > WeekMs
  }

  /** An empty patch changes nothing; a patch applied twice is applied once. */
  lemma MergeNeutralIdempotent(c: UpdateConfig, u: ConfigPatch)
    ensures Merge(c, NoChanges) == c
    ensures Merge(Merge(c, u), u) == Merge(c, u)
  {
  }

  /** Consecutive updates are one update with the later keys winning. */
  lemma MergeThen(c: UpdateConfig, u: ConfigPatch, v: ConfigPatch)
    ensures Merge(Merge(c, u), v) == Merge(c, Then(u, v))
  {
  }

  /**
   * The shallow merge: every key present in the patch takes the patch's value, and
   * every other key keeps the current one.
   */
  lemma MergeKeepsAbsentKeys(c: UpdateConfig, u: ConfigPatch)
    ensures u.autoCheck.None? ==> Merge(c, u).autoCheck == c.autoCheck
    ensures u.autoDownload.None? ==> Merge(c, u).autoDownload == c.autoDownload
    ensures u.checkInterval.None? ==> Merge(c, u).checkInterval == c.checkInterval
    ensures u.includePrerelease.None? ==> Merge(c, u).includePrerelease == c.includePrerelease
    ensures u.lastCheckTime.None? ==> Merge(c, u).lastCheckTime == c.lastCheckTime
    ensures u.skippedVersion.None? ==> Merge(c, u).skippedVersion == c.skippedVersion
    ensures u.autoCheck.Some? ==> Merge(c, u).autoCheck == u.autoCheck.value
    ensures u.autoDownload.Some? ==> Merge(c, u).autoDownload == u.autoDownload.value
    ensures u.checkInterval.Some? ==> Merge(c, u).checkInterval == u.checkInterval.value
    ensures u.includePrerelease.Some? ==> Merge(c, u).includePrerelease == u.includePrerelease.value
    ensures u.lastCheckTime.Some? ==> Merge(c, u).lastCheckTime == u.lastCheckTime.value
    ensures u.skippedVersion.Some? ==> Merge(c, u).skippedVersion == u.skippedVersion
  {
  }

  /** After `setSkippedVersion(v)` exactly `v` is skipped. */
  lemma SetSkippedThenSkips(c: UpdateConfig, v: string, w: string)
    ensures SkipsVersion(Merge(c, NoChanges.(skippedVersion := Some(v))), w) <==> w == v
  {
  }

  /**
   * After `clearSkippedVersion` nothing is skipped, except an empty version string,
   * which is falsy and so never cleared.
   */
  lemma ClearedSkipsNothing(c: UpdateConfig, w: string)
    ensures var after := if Cleared(c).Some? then Cleared(c).value else c;
      SkipsVersion(after, w) <==> c.skippedVersion == Some("") && w == ""
  {
  }

  /** `clearSkippedVersion` touches no other key. */
  lemma ClearedKeepsOtherKeys(c: UpdateConfig)
    requires Cleared(c).Some?
    ensures Cleared(c).value == Merge(c.(skippedVersion := None), NoChanges)
    ensures Cleared(c).value.(skippedVersion := c.skippedVersion) == c
  {
  }

  /**
   * The interval rule: never with autoCheck off, always at startup, and otherwise
   * only once strictly more than a day (a week) has passed since the last check.
   */
  lemma ShouldCheckRule(c: UpdateConfig, now: int)
    ensures !c.autoCheck ==> !ShouldCheck(c, now)
    ensures c.autoCheck && c.checkInterval == Startup ==> ShouldCheck(c, now)
    ensures c.autoCheck && c.checkInterval == Daily ==> (ShouldCheck(c, now) <==> now > c.lastCheckTime + 86_400_000)
    ensures c.autoCheck && c.checkInterval == Weekly ==> (ShouldCheck(c, now) <==> now > c.lastCheckTime + 604_800_000)
  {
  }

  /** Once due, a check stays due as time passes. */
  lemma ShouldCheckMonotone(c: UpdateConfig, now: int, later: int)
    requires now <= later && ShouldCheck(c, now)
    ensures ShouldCheck(c, later)
  {
  }

  /**
   * Recording a check at `now` (setLastCheckTime) holds off the next daily check for
   * exactly one day: due at `now + 86_400_001`, not at `now + 86_400_000`.
   */
  lemma JustCheckedWaits(c: UpdateConfig, now: int)
    requires c.autoCheck && c.checkInterval == Daily
    ensures var after := Merge(c, NoChanges.(lastCheckTime := Some(now)));
      !ShouldCheck(after, now + DayMs) && ShouldCheck(after, now + DayMs + 1)
  {
  }

  /** A weekly check that is due would also be due daily. */
  lemma WeeklyDueIsDailyDue(c: UpdateConfig, now: int)
    requires c.checkInterval == Weekly && ShouldCheck(c, now)
    ensures ShouldCheck(c.(checkInterval := Daily), now)
  {
  }

  /** `UpdateConfigStore`: the `updateConfig` key of the store, absent until first written. */
  class UpdateConfigStore {
    var stored: Option<UpdateConfig>

    constructor()
      ensures stored == None
    {
      stored := None;
    }

    /** `getConfig`: the stored record, or DEFAULT_UPDATE_CONFIG when nothing is stored. */
    function GetConfig(): (r: UpdateConfig)
      reads this
      ensures stored.None? ==> r == Default
      ensures stored.Some? ==> r == stored.value
    {
      stored.GetOr(Default)
    }

    /** `updateConfig(updates)`: write the shallow merge onto the current record. */
    method UpdateConfig(updates: ConfigPatch)
      modifies this
      ensures stored == Some(Merge(old(GetConfig()), updates))
    {
      var current := GetConfig();
      stored := Some(Merge(current, updates));
    }

    /** `resetConfig`. */
    method ResetConfig()
      modifies this
      ensures stored == Some(Default) && GetConfig() == Default
    {
      stored := Some(Default);
    }

    /** `setLastCheckTime`: only `lastCheckTime` changes. */
    method SetLastCheckTime(timestamp: int)
      modifies this
      ensures GetConfig() == old(GetConfig()).(lastCheckTime := timestamp)
      ensures stored.Some?
    {
      UpdateConfig(NoChanges.(lastCheckTime := Some(timestamp)));
    }

    /** `setSkippedVersion`: only `skippedVersion` changes. */
    method SetSkippedVersion(version: string)
      modifies this
      ensures GetConfig() == old(GetConfig()).(skippedVersion := Some(version))
      ensures stored.Some?
    {
      UpdateConfig(NoChanges.(skippedVersion := Some(version)));
    }

    /** `clearSkippedVersion`: rewrites the record without `skippedVersion`, only when that is truthy. */
    method ClearSkippedVersion()
      modifies this
      ensures Cleared(old(GetConfig())).Some? ==> stored == Cleared(old(GetConfig()))
      ensures Cleared(old(GetConfig())).None? ==> stored == old(stored)
    {
      var config := GetConfig();
      if config.skippedVersion.Some? && config.skippedVersion.value != "" {
        stored := Some(config.(skippedVersion := None));
      }
    }

    /** `shouldSkipVersion`. */
    function ShouldSkipVersion(version: string): (r: bool)
      reads this
      ensures r <==> stored.Some? && stored.value.skippedVersion == Some(version)
    {
      SkipsVersion(GetConfig(), version)
    }

    /** `shouldCheckForUpdates`, with `Date.now()` passed in. */
    function ShouldCheckForUpdates(now: int): (r: bool)
      reads this
      ensures stored.None? ==> r
      ensures stored.Some? && !stored.value.autoCheck ==> !r
    {
      ShouldCheck(GetConfig(), now)
    }
  }
}
