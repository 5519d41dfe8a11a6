/**
 * The update service (packages/electron/src/main/services/UpdateService.ts): a status
 * machine moved by the updater's events and guarded by the commands the renderer
 * sends (check, download, install, skip, cancel), over the persisted preferences of
 * `UpdateSettings`.
 *
 * The updater library is represented by the settings it is given and by a ghost log
 * of the calls made into it; what those calls report back is a parameter (`None` for
 * success, `Some(message)` when they throw). Its events arrive as calls of the
 * `On…` handlers. Emissions to the renderer are recorded in a ghost log; sending
 * throws when no window is attached, and that failure is an outcome of the handler.
 */
module UpdateService {
  import opened Wrappers
  import opened UpdateSettings
  import UpdateErrors

  datatype UpdateStatus = Idle | Checking | Available | NotAvailable | Downloading | Downloaded | Error

  datatype ReleaseNotes = NotesText(text: string) | NotesList(notes: seq<(Option<string>, string)>)

  /** `UpdateInfo` as the service stores it. */
  datatype UpdateInfo = UpdateInfo(
    version: string, releaseDate: string, releaseNotes: ReleaseNotes, downloadSize: int, downloadUrl: string)

  datatype ReleaseFile = ReleaseFile(size: Option<int>, url: Option<string>)

  /** The payload of the updater's `update-available` event. */
  datatype ReleaseEvent = ReleaseEvent(
    version: string, releaseDate: Option<string>, releaseNotes: Option<ReleaseNotes>, files: seq<ReleaseFile>)

  /** How a command or handler ends: normally, or by throwing with a message. */
  datatype Outcome = Done | Throws(message: string)

  /** What the service sends to the window. */
  /** `ProgressInfo`: the four figures of a `download-progress` event, in whole units. */
  datatype ProgressInfo = ProgressInfo(bytesPerSecond: int, percent: int, transferred: int, total: int)

  datatype Emission =
    | StatusChanged(status: UpdateStatus, info: Option<UpdateInfo>)
    | ProgressChanged(progress: ProgressInfo)
    | UpdateDownloaded(downloaded: Option<UpdateInfo>)
    | ErrorReported(error: UpdateErrors.UpdateError)

  /**
   * What the updater reports for one check, through the events it emits while the
   * check is awaited: a release (and what its automatic download would throw), no
   * release, or an error, which it also rethrows with `message`.
   */
  datatype CheckReport =
    | ReportsAvailable(event: ReleaseEvent, downloadError: Option<string>)
    | ReportsNotAvailable
    | ReportsError(error: UpdateErrors.Thrown, message: string)

  /** The calls made into the updater library. */
  datatype UpdaterCall = CheckCall | DownloadCall | QuitAndInstallCall | RemoveListenersCall

  const NoWindowMessage: string := "this.mainWidnow is null"
  const NothingToDownloadMessage: string := "没有可用的更新可供下载"
  const NotDownloadedMessage: string := "更新尚未下载完成"

  /**
   * The info stored for an `update-available` event: missing or empty release date
   * replaced by `nowIso`, missing notes by "", and size and url taken from the first
   * file when it has them.
   */
  function InfoFrom(event: ReleaseEvent, nowIso: string): (r: UpdateInfo)
    ensures r.version == event.version
    ensures Truthy(event.releaseDate) ==> r.releaseDate == event.releaseDate.value
    ensures !Truthy(event.releaseDate) ==> r.releaseDate == nowIso
    ensures event.files == [] ==> r.downloadSize == 0 && r.downloadUrl == ""
    ensures event.releaseNotes.None? ==> r.releaseNotes == NotesText("")
  {
    var first := if event.files == [] then ReleaseFile(None, None) else event.files[0];
    UpdateInfo(
      event.version,
      OrElse(event.releaseDate, Some(nowIso)).value,
      event.releaseNotes.GetOr(NotesText("")),
      first.size.GetOr(0),
      first.url.GetOr(""))
  }

  /** Whether `updateConfig(updates)` reconfigures the updater. */
  predicate TouchesUpdater(updates: ConfigPatch) {
    updates.includePrerelease.Some? || updates.autoDownload.Some?
  }

  /**
   * `initialize`'s startup test `config.autoCheck && shouldCheckForUpdates()`: the
   * first conjunct adds nothing, since the interval rule already requires it.
   */
  lemma StartupTestIsIntervalRule(c: UpdateConfig, now: int)
    ensures c.autoCheck && ShouldCheck(c, now) <==> ShouldCheck(c, now)
  {
  }

  /**
   * Skipping the reconfiguration is sound: a patch without the two updater-facing
   * keys leaves both of them unchanged in the merged record, and a patch with either
   * key changes it for some record.
   */
  lemma TouchesUpdaterExactly(updates: ConfigPatch)
    ensures !TouchesUpdater(updates) ==> forall c: UpdateConfig ::
      Merge(c, updates).includePrerelease == c.includePrerelease && Merge(c, updates).autoDownload == c.autoDownload
    ensures TouchesUpdater(updates) ==> exists c: UpdateConfig ::
      Merge(c, updates).includePrerelease != c.includePrerelease || Merge(c, updates).autoDownload != c.autoDownload
  {
    if updates.includePrerelease.Some? {
      var c := Default.(includePrerelease := !updates.includePrerelease.value);
      assert Merge(c, updates).includePrerelease != c.includePrerelease;
    } else if updates.autoDownload.Some? {
      var c := Default.(autoDownload := !updates.autoDownload.value);
      assert Merge(c, updates).autoDownload != c.autoDownload;
    }
  }

  class UpdateService {
    const configStore: UpdateConfigStore
    var isInitialized: bool
    var currentStatus: UpdateStatus
    var updateInfo: Option<UpdateInfo>
    /** Whether `mainWidnow` is set. */
    var hasWindow: bool
    /** Whether `cancellationToken` is set. */
    var holdsToken: bool
    /** Whether the updater's event listeners are still registered. */
    var listening: bool
    /** The updater's `allowPrerelease`, `autoDownload` and `autoInstallOnAppQuit`. */
    var allowPrerelease: bool
    var autoDownload: bool
    var autoInstallOnAppQuit: bool
    ghost var emitted: seq<Emission>
    ghost var updaterCalls: seq<UpdaterCall>

    /**
     * Between steps: an `available` status always comes with its update info, and no
     * cancellation token is left behind.
     */
    ghost predicate Valid()
      reads this
    {
      (currentStatus == Available ==> updateInfo.Some?) && !holdsToken
    }

    /** The private constructor: idle, not initialized, no window, listeners registered. */
    constructor (store: UpdateConfigStore)
      ensures Valid() && configStore == store
      ensures currentStatus == Idle && updateInfo == None && !isInitialized && !hasWindow && listening
      ensures emitted == [] && updaterCalls == []
    {
      configStore := store;
      isInitialized := false;
      currentStatus := Idle;
      updateInfo := None;
      hasWindow := false;
      holdsToken := false;
      listening := true;
      allowPrerelease := false;
      autoDownload := true;
      autoInstallOnAppQuit := true;
      emitted := [];
      updaterCalls := [];
    }

    /** `emitStatusUpdate`: sends the status and info, or throws without a window. */
    method EmitStatusUpdate() returns (r: Outcome)
      modifies this`emitted
      ensures hasWindow ==> r == Done && emitted == old(emitted) + [StatusChanged(currentStatus, updateInfo)]
      ensures !hasWindow ==> r == Throws(NoWindowMessage) && emitted == old(emitted)
    {
      if !hasWindow {
        return Throws(NoWindowMessage);
      }
      emitted := emitted + [StatusChanged(currentStatus, updateInfo)];
      r := Done;
    }

    /** `emitProgressUpdate`, `emitUpdateDownloaded`, `emitErrorUpdate`. */
    method Emit(e: Emission) returns (r: Outcome)
      modifies this`emitted
      ensures hasWindow ==> r == Done && emitted == old(emitted) + [e]
      ensures !hasWindow ==> r == Throws(NoWindowMessage) && emitted == old(emitted)
    {
      if !hasWindow {
        return Throws(NoWindowMessage);
      }
      emitted := emitted + [e];
      r := Done;
    }

    /** `configureAutoUpdater`: copies the stored preferences into the updater. */
    method ConfigureAutoUpdater()
      modifies this`allowPrerelease, this`autoDownload, this`autoInstallOnAppQuit
      ensures allowPrerelease == configStore.GetConfig().includePrerelease
      ensures autoDownload == configStore.GetConfig().autoDownload
      ensures !autoInstallOnAppQuit
    {
      var config := configStore.GetConfig();
      allowPrerelease := config.includePrerelease;
      autoDownload := config.autoDownload;
      autoInstallOnAppQuit := false;
    }

    /**
     * `initialize(mainWindow)` at time `now` (`nowIso` as an ISO string); `report` is
     * what the updater's startup check reports, if one is made. A no-op once
     * initialized; a failed startup check leaves the service uninitialized.
     */
    method Initialize(now: int, nowIso: string, report: CheckReport) returns (r: Outcome)
      requires Valid()
      modifies this, configStore
      ensures Valid()
      ensures old(isInitialized) ==> (r == Done && currentStatus == old(currentStatus) &&
        updateInfo == old(updateInfo) && hasWindow == old(hasWindow) && updaterCalls == old(updaterCalls))
      ensures !old(isInitialized) ==> hasWindow
      ensures !old(isInitialized) ==> (allowPrerelease == old(configStore.GetConfig()).includePrerelease &&
        autoDownload == old(configStore.GetConfig()).autoDownload && !autoInstallOnAppQuit)
      ensures !old(isInitialized) && !ShouldCheck(old(configStore.GetConfig()), now) ==>
        r == Done && isInitialized && updaterCalls == old(updaterCalls)
      ensures !old(isInitialized) && ShouldCheck(old(configStore.GetConfig()), now) && old(currentStatus) != Checking ==>
        |updaterCalls| > |old(updaterCalls)| && updaterCalls[..|old(updaterCalls)| + 1] == old(updaterCalls) + [CheckCall] &&
        (r == Done <==> !report.ReportsError?) &&
        (report.ReportsError? ==> r == Throws(report.message) && currentStatus == Error) &&
        (report.ReportsAvailable? ==> updateInfo == Some(InfoFrom(report.event, nowIso)))
      ensures !old(isInitialized) && ShouldCheck(old(configStore.GetConfig()), now) && old(currentStatus) == Checking ==>
        r == Done && isInitialized && updaterCalls == old(updaterCalls)
      ensures isInitialized <==> r == Done
      ensures listening == old(listening)
      ensures updaterCalls == old(updaterCalls) ==> configStore.stored == old(configStore.stored)
    {
      if isInitialized {
        return Done;
      }
      hasWindow := true;
      ConfigureAutoUpdater();
      var config := configStore.GetConfig();
      if config.autoCheck && configStore.ShouldCheckForUpdates(now) {
        var info;
        info, r := CheckForUpdates(report, now, nowIso);
        if r.Throws? {
          return r;
        }
      }
      isInitialized := true;
      r := Done;
    }

    /**
     * `checkForUpdates`: while a check runs it answers the current info without a new
     * check. Otherwise it asks the updater, whose events run their handlers inside
     * the awaited call (`checking-for-update`, then `update-available`,
     * `update-not-available` or `error`), and answers the info held afterwards, which
     * is the new one when an update was found.
     */
    method CheckForUpdates(report: CheckReport, now: int, nowIso: string) returns (info: Option<UpdateInfo>, r: Outcome)
      requires Valid()
      modifies this`currentStatus, this`updateInfo, this`emitted, this`holdsToken, this`updaterCalls, configStore
      ensures Valid()
      ensures old(currentStatus) == Checking ==> (r == Done && info == updateInfo == old(updateInfo) &&
        currentStatus == Checking && updaterCalls == old(updaterCalls) && configStore.stored == old(configStore.stored))
      ensures old(currentStatus) != Checking ==>
        |updaterCalls| > |old(updaterCalls)| && updaterCalls[..|old(updaterCalls)| + 1] == old(updaterCalls) + [CheckCall]
      ensures old(currentStatus) != Checking && !hasWindow ==>
        r == Throws(NoWindowMessage) && currentStatus == Checking && updaterCalls == old(updaterCalls) + [CheckCall]
      ensures old(currentStatus) != Checking && hasWindow && report.ReportsAvailable? ==>
        var found := InfoFrom(report.event, nowIso);
        var skipped := old(configStore.ShouldSkipVersion(report.event.version));
        r == Done && info == updateInfo == Some(found) &&
        currentStatus == (if skipped then Idle else Available) &&
        updaterCalls == old(updaterCalls) + [CheckCall] +
          (if !skipped && old(configStore.GetConfig()).autoDownload then [DownloadCall] else [])
      ensures old(currentStatus) != Checking && hasWindow && report.ReportsNotAvailable? ==>
        r == Done && info == updateInfo == old(updateInfo) && currentStatus == Idle &&
        configStore.GetConfig() == old(configStore.GetConfig()).(lastCheckTime := now) &&
        updaterCalls == old(updaterCalls) + [CheckCall]
      ensures old(currentStatus) != Checking && hasWindow && report.ReportsError? ==>
        r == Throws(report.message) && currentStatus == Error && updaterCalls == old(updaterCalls) + [CheckCall]
      ensures !report.ReportsNotAvailable? ==> configStore.stored == old(configStore.stored)
    {
      info := updateInfo;
      if currentStatus == Checking {
        return info, Done;
      }
      updaterCalls := updaterCalls + [CheckCall];
      r := OnCheckingForUpdate();
      if r.Throws? {
        return;
      }
      match report {
        case ReportsAvailable(event, downloadError) =>
          r := OnUpdateAvailable(event, nowIso, downloadError);
        case ReportsNotAvailable =>
          r := OnUpdateNotAvailable(now);
        case ReportsError(error, message) =>
          var _, _ := OnError(error, now);
          r := Throws(message);
      }
      if r.Done? {
        info := updateInfo;
      }
    }

    /**
     * `downloadUpdate`: refused unless an update is `available`; the cancellation
     * token is held only while the updater downloads and is null again afterwards,
     * however the call ends.
     */
    method DownloadUpdate(downloadError: Option<string>) returns (r: Outcome)
      requires Valid()
      modifies this`holdsToken, this`updaterCalls
      ensures Valid() && !holdsToken
      ensures old(currentStatus) != Available ==> r == Throws(NothingToDownloadMessage) && updaterCalls == old(updaterCalls)
      ensures old(currentStatus) == Available ==> (updaterCalls == old(updaterCalls) + [DownloadCall] &&
        r == (if downloadError.Some? then Throws(downloadError.value) else Done))
    {
      if currentStatus != Available {
        holdsToken := false;
        return Throws(NothingToDownloadMessage);
      }
      holdsToken := true;
      updaterCalls := updaterCalls + [DownloadCall];
      r := if downloadError.Some? then Throws(downloadError.value) else Done;
      holdsToken := false;
    }

    /** `quitAndInstall`: refused unless the update is `downloaded`. */
    method QuitAndInstall() returns (r: Outcome)
      modifies this`updaterCalls
      ensures currentStatus != Downloaded ==> r == Throws(NotDownloadedMessage) && updaterCalls == old(updaterCalls)
      ensures currentStatus == Downloaded ==> r == Done && updaterCalls == old(updaterCalls) + [QuitAndInstallCall]
    {
      if currentStatus != Downloaded {
        return Throws(NotDownloadedMessage);
      }
      updaterCalls := updaterCalls + [QuitAndInstallCall];
      r := Done;
    }

    /**
     * `skipVersion`: with update info, records its version as skipped and goes back
     * to `idle` without info; without, changes nothing.
     */
    method SkipVersion() returns (r: Outcome)
      requires Valid()
      modifies this`currentStatus, this`updateInfo, this`emitted, configStore
      ensures Valid()
      ensures old(updateInfo).None? ==> (r == Done && currentStatus == old(currentStatus) &&
        updateInfo == None && configStore.stored == old(configStore.stored) && emitted == old(emitted))
      ensures old(updateInfo).Some? ==> (currentStatus == Idle && updateInfo == None &&
        configStore.GetConfig() == old(configStore.GetConfig()).(skippedVersion := Some(old(updateInfo).value.version)))
      ensures old(updateInfo).Some? ==> (r == Done <==> hasWindow)
    {
      if updateInfo.None? {
        return Done;
      }
      configStore.SetSkippedVersion(updateInfo.value.version);
      currentStatus := Idle;
      updateInfo := None;
      r := EmitStatusUpdate();
    }

    /** `cancelDownload`: from `downloading`, back to `idle` without info; otherwise nothing. */
    method CancelDownload()
      requires Valid()
      modifies this`currentStatus, this`updateInfo, this`updaterCalls
      ensures Valid()
      ensures old(currentStatus) == Downloading ==> currentStatus == Idle && updateInfo == None
      ensures old(currentStatus) != Downloading ==> currentStatus == old(currentStatus) && updateInfo == old(updateInfo)
      ensures updaterCalls == old(updaterCalls)
    {
      if currentStatus == Downloading {
        currentStatus := Idle;
        updateInfo := None;
        // `cancellationToken?.cancel()` is a no-op here: every async step runs to completion,
        // and `downloadUpdate`'s `finally` has reset the token to null before any other call runs
      }
    }

    /**
     * `updateConfig(updates)`: merges the patch into the store, reconfigures the
     * updater only when the patch names one of its two keys, and answers the new record.
     */
    method UpdateConfig(updates: ConfigPatch) returns (config: UpdateConfig)
      modifies configStore, this`allowPrerelease, this`autoDownload, this`autoInstallOnAppQuit
      ensures config == configStore.GetConfig() == Merge(old(configStore.GetConfig()), updates)
      ensures TouchesUpdater(updates) ==>
        allowPrerelease == config.includePrerelease && autoDownload == config.autoDownload && !autoInstallOnAppQuit
      ensures !TouchesUpdater(updates) ==> (allowPrerelease == old(allowPrerelease) &&
        autoDownload == old(autoDownload) && autoInstallOnAppQuit == old(autoInstallOnAppQuit))
    {
      configStore.UpdateConfig(updates);
      if updates.includePrerelease.Some? || updates.autoDownload.Some? {
        ConfigureAutoUpdater();
      }
      config := configStore.GetConfig();
    }

    /** `resetConfig`: the default record, copied into the updater. */
    method ResetConfig()
      modifies configStore, this`allowPrerelease, this`autoDownload, this`autoInstallOnAppQuit
      ensures configStore.GetConfig() == Default
      ensures allowPrerelease == Default.includePrerelease && autoDownload == Default.autoDownload && !autoInstallOnAppQuit
    {
      configStore.ResetConfig();
      ConfigureAutoUpdater();
    }

    /** `destroy`: removes the updater's listeners and clears the initialized flag. */
    method Destroy()
      modifies this`listening, this`isInitialized, this`updaterCalls
      ensures !listening && !isInitialized && updaterCalls == old(updaterCalls) + [RemoveListenersCall]
    {
      updaterCalls := updaterCalls + [RemoveListenersCall];
      listening := false;
      isInitialized := false;
    }

    /** The `checking-for-update` event. */
    method OnCheckingForUpdate() returns (r: Outcome)
      requires Valid()
      modifies this`currentStatus, this`emitted
      ensures Valid() && currentStatus == Checking
      ensures r == Done <==> hasWindow
      ensures !hasWindow ==> r == Throws(NoWindowMessage)
    {
      currentStatus := Checking;
      r := EmitStatusUpdate();
    }

    /**
     * The `update-available` event: `available` with the new info; then back to
     * `idle` if that version is skipped, and otherwise a download when auto-download
     * is on. Without a window the first emission throws and the handler stops there.
     */
    method OnUpdateAvailable(event: ReleaseEvent, nowIso: string, downloadError: Option<string>) returns (r: Outcome)
      requires Valid()
      modifies this`currentStatus, this`updateInfo, this`emitted, this`holdsToken, this`updaterCalls
      ensures Valid()
      ensures updateInfo == Some(InfoFrom(event, nowIso))
      ensures !hasWindow ==> r == Throws(NoWindowMessage) && currentStatus == Available && updaterCalls == old(updaterCalls)
      ensures hasWindow && configStore.ShouldSkipVersion(event.version) ==>
        r == Done && currentStatus == Idle && updaterCalls == old(updaterCalls)
      ensures hasWindow && !configStore.ShouldSkipVersion(event.version) ==> (r == Done && currentStatus == Available &&
        updaterCalls == old(updaterCalls) + (if configStore.GetConfig().autoDownload then [DownloadCall] else []))
    {
      currentStatus := Available;
      updateInfo := Some(InfoFrom(event, nowIso));
      r := EmitStatusUpdate();
      if r.Throws? {
        return;
      }
      if configStore.ShouldSkipVersion(event.version) {
        currentStatus := Idle;
        r := EmitStatusUpdate();
        return;
      }
      var config := configStore.GetConfig();
      if config.autoDownload {
        // not awaited: whatever the download throws does not reach the handler
        var _ := DownloadUpdate(downloadError);
      }
    }

    /** The `update-not-available` event at time `now`: `idle`, and the check time recorded. */
    method OnUpdateNotAvailable(now: int) returns (r: Outcome)
      requires Valid()
      modifies this`currentStatus, this`emitted, configStore
      ensures Valid() && currentStatus == Idle
      ensures configStore.GetConfig() == old(configStore.GetConfig()).(lastCheckTime := now)
      ensures r == Done <==> hasWindow
    {
      currentStatus := Idle;
      configStore.SetLastCheckTime(now);
      r := EmitStatusUpdate();
    }

    /** The `download-progress` event: `downloading`, and the event's four figures sent on as they came. */
    method OnDownloadProgress(progress: ProgressInfo) returns (r: Outcome)
      requires Valid()
      modifies this`currentStatus, this`emitted
      ensures Valid() && currentStatus == Downloading
      ensures hasWindow ==> r == Done && emitted == old(emitted) + [ProgressChanged(progress)]
      ensures !hasWindow ==> r == Throws(NoWindowMessage) && emitted == old(emitted)
    {
      currentStatus := Downloading;
      var progressInfo := ProgressInfo(progress.bytesPerSecond, progress.percent, progress.transferred, progress.total);
      r := Emit(ProgressChanged(progressInfo));
    }

    /** The `update-downloaded` event. */
    method OnUpdateDownloaded() returns (r: Outcome)
      requires Valid()
      modifies this`currentStatus, this`emitted
      ensures Valid() && currentStatus == Downloaded
      ensures hasWindow ==> r == Done && emitted == old(emitted) + [UpdateDownloaded(updateInfo)]
    {
      currentStatus := Downloaded;
      r := Emit(UpdateDownloaded(updateInfo));
    }

    /** The `error` event at time `now`: `error`, and the classified error sent to the window. */
    method OnError(error: UpdateErrors.Thrown, now: int) returns (handled: UpdateErrors.UpdateError, r: Outcome)
      requires Valid()
      modifies this`currentStatus, this`emitted
      ensures Valid() && currentStatus == Error
      ensures handled.kind == UpdateErrors.IdentifyErrorType(error) && handled.timestamp == now
      ensures hasWindow ==> r == Done && emitted == old(emitted) + [ErrorReported(handled)]
    {
      currentStatus := Error;
      handled := UpdateErrors.HandleError(error, None, now);
      r := Emit(ErrorReported(handled));
    }
  }
}
