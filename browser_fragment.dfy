/**
 * The download-dialog and download-button bookkeeping of `BaseBrowserFragment`:
 * the per-session map of download dialogs that survive a tab switch, the rule
 * for showing the completed-download dialog, the routing of permission
 * results by request code, the back-press decision to remove the current
 * session, the single repeating "is this URL downloading" check, and the
 * visibility table of the download FAB and the convert button.
 */
module BrowserFragment {
  import opened Optional

  /** `DownloadState.Status`. */
  datatype DownloadStatus = Initiated | Downloading | Paused | Cancelled | Completed | Failed

  /**
   * The fields of a `DownloadState` the fragment reads or copies. `status`
   * is the state's own status, which the content-type report reads; the
   * dialog rule reads the job status the callback is given instead.
   */
  datatype DownloadState = DownloadState(
    id: string,
    url: string,
    sessionId: Option<string>,
    skipConfirmation: bool,
    status: DownloadStatus,
    contentType: Option<string>)

  /**
   * An analytics event the download callbacks send: the
   * `"download_content_type"` event of `ReportManager`, with its
   * `"content_type"` value, and `AppEventReporter.reportSniffDownloadSuccess`.
   */
  datatype DownloadReport = DownloadContentType(contentType: Option<string>)
                          | SniffDownloadSuccess(sniffedType: string)

  /**
   * How the dismiss callback ended: normally, or by the
   * `NullPointerException` of `contentType!!`, which nothing catches.
   */
  datatype DismissOutcome = Dismissed | ContentTypeMissing

  /**
   * One entry of `sharedViewModel.downloadDialogState`: the download the
   * dialog shows (nullable in the pair's type) and whether it failed.
   */
  datatype SavedDialog = SavedDialog(download: Option<DownloadState>, didFail: bool)

  /** What the dynamic download dialog view shows; `None` is `View.GONE`. */
  datatype DialogView = DialogView(download: Option<DownloadState>, didFail: bool)

  /** A dialog re-created by `resumeDownloadDialogState`, with the state its callbacks captured. */
  datatype ResumedDialog = ResumedDialog(sessionId: string, saved: SavedDialog)

  /** The store action a retry dispatches. */
  datatype StoreAction = UpdateDownloadAction(sessionId: string, download: DownloadState)

  /**
   * `shouldShowCompletedDownloadDialog`. The comparison
   * `sessionId == getCurrentTab()?.id ?: false` parses as
   * `sessionId == (getCurrentTab()?.id ?: false)`, so without a current tab a
   * string is compared with `false` and the test fails.
   */
  function ShouldShowCompletedDownloadDialog(
    download: DownloadState, status: DownloadStatus, currentTabId: Option<string>): (r: bool)
    ensures r <==> (status == Completed || status == Failed) &&
                   currentTabId.Some? && download.sessionId == currentTabId
    ensures currentTabId.None? ==> !r
  {
    var isValidStatus := status in [Completed, Failed];
    var isSameTab := match currentTabId
      case None => false
      case Some(id) => download.sessionId == Some(id);
    isValidStatus && isSameTab
  }

  /**
   * Pull-to-refresh is never enabled while the page is in fullscreen. The
   * source's whole rule is the conjunction itself: the feature flag, the
   * user's setting and not being in fullscreen, with nothing else consulted.
   */
  function ShouldPullToRefreshBeEnabled(
    pullToRefreshFlag: bool, enabledInSettings: bool, inFullScreen: bool): (r: bool)
    ensures inFullScreen ==> !r
    ensures r <==> pullToRefreshFlag && enabledInSettings && !inFullScreen
  {
    pullToRefreshFlag && enabledInSettings && !inFullScreen
  }

  // ---------------------------------------------------------------------
  // Permission results
  // ---------------------------------------------------------------------

  const REQUEST_CODE_DOWNLOAD_PERMISSIONS: int := 1
  const REQUEST_CODE_PROMPT_PERMISSIONS: int := 2
  const REQUEST_CODE_APP_PERMISSIONS: int := 3

  /** The features that request permissions. */
  datatype PermissionsFeature = DownloadsFeature | PromptsFeature | SitePermissionsFeature

  /** The request code each feature asks with (its `onNeedToRequestPermissions`). */
  function RequestCodeOf(feature: PermissionsFeature): int {
    match feature
    case DownloadsFeature => REQUEST_CODE_DOWNLOAD_PERMISSIONS
    case PromptsFeature => REQUEST_CODE_PROMPT_PERMISSIONS
    case SitePermissionsFeature => REQUEST_CODE_APP_PERMISSIONS
  }

  /** `onRequestPermissionsResult`: the feature a result is forwarded to, if any. */
  function FeatureFor(requestCode: int): (r: Option<PermissionsFeature>)
    ensures r.None? <==> requestCode !in {1, 2, 3}
    ensures r.Some? ==> RequestCodeOf(r.value) == requestCode
  {
    if requestCode == REQUEST_CODE_DOWNLOAD_PERMISSIONS then Some(DownloadsFeature)
    else if requestCode == REQUEST_CODE_PROMPT_PERMISSIONS then Some(PromptsFeature)
    else if requestCode == REQUEST_CODE_APP_PERMISSIONS then Some(SitePermissionsFeature)
    else None
  }

  /** A result comes back to exactly the feature that asked for it. */
  lemma PermissionRoutingRoundTrip(feature: PermissionsFeature, requestCode: int)
    ensures FeatureFor(RequestCodeOf(feature)) == Some(feature)
    ensures FeatureFor(requestCode) == Some(feature) <==> requestCode == RequestCodeOf(feature)
  {
  }

  // ---------------------------------------------------------------------
  // Back press
  // ---------------------------------------------------------------------

  /** The parts of the current `SessionState` that `removeSessionIfNeeded` reads. */
  datatype Session = Session(
    id: string,
    isExternalSource: bool,
    restored: bool,
    isTab: bool,
    parentId: Option<string>)

  /**
   * A `tabsUseCases.removeTab` call: the one-argument form, and the form that
   * passes `selectParentIfExists`.
   */
  datatype RemoveTabCall = RemoveTab(id: string)
                         | RemoveTabSelectingParent(id: string, selectParentIfExists: bool)

  /** The download FAB's state in the view model (`FabStatus`). */
  datatype FabStatus = Normal | Downloading | Converting

  /** The text on the convert button. */
  datatype ConvertText = ConvertingText | DownloadingText

  /**
   * The fragment's state for these features. The shared view model's dialog
   * map, the view flags and the running repeating-check job are fields;
   * `isDownloadableWebsite` and `isInstagramDownloadImageUrl` (defined
   * outside this model) are parameters of the constructor.
   */
  class BrowserFragment {
    const isDownloadableWebsite: string -> bool
    const isInstagramDownloadImageUrl: string -> bool

    var downloadDialogState: map<string, SavedDialog>
    var dialogView: Option<DialogView>
    var dispatched: seq<StoreAction>

    var isAdded: bool
    var currentWebUrl: string
    var isVideoDownloaderEnabled: bool
    var fabVisible: bool
    var convertVisible: bool
    var convertText: ConvertText
    var viewModelFabState: FabStatus

    var hasStartRepeatCheck: bool
    var checkDownloadingJob: Option<nat>
    var activeJobs: set<nat>
    var jobsStarted: nat

    var removedTabs: seq<RemoveTabCall>
    var activityFinished: bool
    var reports: seq<DownloadReport>

    /**
     * The repeating check runs exactly when the flag says so, and then it is
     * the job the field holds.
     */
    ghost predicate Valid()
      reads this
    {
      && (hasStartRepeatCheck ==> checkDownloadingJob.Some? && activeJobs == {checkDownloadingJob.value})
      && (!hasStartRepeatCheck ==> activeJobs == {})
      && (forall j :: j in activeJobs ==> j < jobsStarted)
    }

    constructor (isDownloadableWebsite: string -> bool, isInstagramDownloadImageUrl: string -> bool,
                 isAdded: bool, isVideoDownloaderEnabled: bool)
      ensures Valid()
      ensures this.isDownloadableWebsite == isDownloadableWebsite
      ensures this.isInstagramDownloadImageUrl == isInstagramDownloadImageUrl
      ensures this.isAdded == isAdded && this.isVideoDownloaderEnabled == isVideoDownloaderEnabled
      ensures downloadDialogState == map[] && dialogView.None? && dispatched == []
      ensures !hasStartRepeatCheck && activeJobs == {} && checkDownloadingJob.None?
      ensures currentWebUrl == "" && viewModelFabState == Normal
      ensures removedTabs == [] && !activityFinished && reports == []
    {
      this.isDownloadableWebsite := isDownloadableWebsite;
      this.isInstagramDownloadImageUrl := isInstagramDownloadImageUrl;
      this.isAdded := isAdded;
      this.isVideoDownloaderEnabled := isVideoDownloaderEnabled;
      downloadDialogState := map[];
      dialogView := None;
      dispatched := [];
      currentWebUrl := "";
      fabVisible := false;
      convertVisible := false;
      convertText := ConvertingText;
      viewModelFabState := Normal;
      hasStartRepeatCheck := false;
      checkDownloadingJob := None;
      activeJobs := {};
      jobsStarted := 0;
      removedTabs := [];
      activityFinished := false;
      reports := [];
    }

    /** At most one repeating check is ever running. */
    lemma AtMostOneRepeatingCheck()
      requires Valid()
      ensures |activeJobs| <= 1
      ensures activeJobs != {} <==> hasStartRepeatCheck
    {
    }

    /**
     * `saveDownloadDialogState`: a non-null session id gets the download and
     * whether it failed; every other entry is kept; a null id changes nothing.
     */
    method SaveDownloadDialogState(sessionId: Option<string>, download: DownloadState, status: DownloadStatus)
      modifies this`downloadDialogState
      ensures sessionId.Some? ==>
        downloadDialogState == old(downloadDialogState)[sessionId.value := SavedDialog(Some(download), status == Failed)]
      ensures sessionId.None? ==> downloadDialogState == old(downloadDialogState)
      ensures forall id :: id in old(downloadDialogState) && Some(id) != sessionId ==>
        id in downloadDialogState && downloadDialogState[id] == old(downloadDialogState)[id]
    {
      if sessionId.Some? {
        var id := sessionId.value;
        downloadDialogState := downloadDialogState[id := SavedDialog(Some(download), status == Failed)];
      }
    }

    /**
     * `resumeDownloadDialogState`: with no session id or no saved entry the
     * dialog view is hidden and nothing else changes; otherwise the saved
     * dialog is shown again and returned with the state its callbacks keep.
     * The map itself is never changed here.
     */
    method ResumeDownloadDialogState(sessionId: Option<string>) returns (resumed: Option<ResumedDialog>)
      modifies this`dialogView
      ensures downloadDialogState == old(downloadDialogState)
      ensures sessionId.None? || sessionId.value !in downloadDialogState ==>
        resumed.None? && dialogView.None?
      ensures sessionId.Some? && sessionId.value in downloadDialogState ==>
        var saved := downloadDialogState[sessionId.value];
        resumed == Some(ResumedDialog(sessionId.value, saved)) &&
        dialogView == Some(DialogView(saved.download, saved.didFail))
    {
      if sessionId.None? || sessionId.value !in downloadDialogState {
        dialogView := None;
        resumed := None;
        return;
      }
      var saved := downloadDialogState[sessionId.value];
      resumed := Some(ResumedDialog(sessionId.value, saved));
      dialogView := Some(DialogView(saved.download, saved.didFail));
    }

    /**
     * The resumed dialog's "try again": re-dispatches the saved download for
     * the same session with the confirmation skipped; a missing download
     * dispatches nothing.
     */
    method OnResumedTryAgain(dialog: ResumedDialog)
      modifies this`dispatched
      ensures dialog.saved.download.Some? ==>
        dispatched == old(dispatched) + [UpdateDownloadAction(dialog.sessionId,
          dialog.saved.download.value.(skipConfirmation := true))]
      ensures dialog.saved.download.None? ==> dispatched == old(dispatched)
    {
      if dialog.saved.download.Some? {
        var dl := dialog.saved.download.value;
        dispatched := dispatched + [UpdateDownloadAction(dialog.sessionId, dl.(skipConfirmation := true))];
      }
    }

    /** The resumed dialog's dismissal removes exactly that session's entry. */
    method OnResumedDismiss(dialog: ResumedDialog)
      modifies this`downloadDialogState
      ensures downloadDialogState == old(downloadDialogState) - {dialog.sessionId}
      ensures dialog.sessionId !in downloadDialogState
    {
      downloadDialogState := downloadDialogState - {dialog.sessionId};
    }

    /**
     * `setFabState(status)`. On a downloadable URL with the downloader
     * enabled, CONVERTING and DOWNLOADING hide the FAB and show the convert
     * button with their text, NORMAL does the reverse, and the view model
     * records the status; on any other URL both are hidden; while the
     * fragment is not added nothing changes.
     */
    method SetFabState(status: FabStatus)
      modifies this`fabVisible, this`convertVisible, this`convertText, this`viewModelFabState
      ensures !isAdded ==>
        fabVisible == old(fabVisible) && convertVisible == old(convertVisible) &&
        convertText == old(convertText) && viewModelFabState == old(viewModelFabState)
      ensures isAdded && isDownloadableWebsite(currentWebUrl) && isVideoDownloaderEnabled ==>
        viewModelFabState == status &&
        fabVisible == (status == Normal) &&
        convertVisible == (status != Normal) &&
        convertText == (if status == FabStatus.Downloading then DownloadingText else ConvertingText)
      ensures isAdded && !(isDownloadableWebsite(currentWebUrl) && isVideoDownloaderEnabled) ==>
        !fabVisible && !convertVisible &&
        convertText == old(convertText) && viewModelFabState == old(viewModelFabState)
      ensures isAdded ==> !(fabVisible && convertVisible)
    {
      if isAdded {
        if isDownloadableWebsite(currentWebUrl) && isVideoDownloaderEnabled {
          viewModelFabState := status;
          match status
          case Converting =>
            fabVisible := false;
            convertVisible := true;
            convertText := ConvertingText;
          case Downloading =>
            fabVisible := false;
            convertVisible := true;
            convertText := DownloadingText;
          case Normal =>
            fabVisible := true;
            convertVisible := false;
            convertText := ConvertingText;
        } else {
          fabVisible := false;
          convertVisible := false;
        }
      }
    }

    /**
     * One round of the repeating check, given how many downloads of the
     * current URL are running: unless the view model says CONVERTING, the
     * buttons go through `setFabState` with DOWNLOADING for a positive count
     * and NORMAL otherwise, so a fragment that is not added keeps them and a
     * URL that is not downloadable (or a disabled downloader) hides both.
     */
    method RepeatingCheckTick(downloadingCount: int)
      modifies this`fabVisible, this`convertVisible, this`convertText, this`viewModelFabState
      ensures old(viewModelFabState) == Converting || !isAdded ==>
        fabVisible == old(fabVisible) && convertVisible == old(convertVisible) &&
        convertText == old(convertText) && viewModelFabState == old(viewModelFabState)
      ensures old(viewModelFabState) != Converting && isAdded &&
              isDownloadableWebsite(currentWebUrl) && isVideoDownloaderEnabled ==>
        viewModelFabState == (if downloadingCount > 0 then FabStatus.Downloading else Normal) &&
        convertVisible == (downloadingCount > 0) && fabVisible == (downloadingCount <= 0) &&
        convertText == (if downloadingCount > 0 then DownloadingText else ConvertingText)
      ensures old(viewModelFabState) != Converting && isAdded &&
              !(isDownloadableWebsite(currentWebUrl) && isVideoDownloaderEnabled) ==>
        !fabVisible && !convertVisible &&
        convertText == old(convertText) && viewModelFabState == old(viewModelFabState)
    {
      if viewModelFabState != Converting {
        if downloadingCount > 0 {
          SetFabState(FabStatus.Downloading);
        } else {
          SetFabState(Normal);
        }
      }
    }

    /**
     * `monitorButtonState(url)`: starts a repeating check only when none is
     * running and the URL is downloadable with the downloader enabled.
     */
    method MonitorButtonState(url: string)
      requires Valid()
      modifies this`hasStartRepeatCheck, this`checkDownloadingJob, this`activeJobs, this`jobsStarted
      ensures Valid()
      ensures old(hasStartRepeatCheck) || !isDownloadableWebsite(url) || !isVideoDownloaderEnabled ==>
        hasStartRepeatCheck == old(hasStartRepeatCheck) && activeJobs == old(activeJobs) &&
        checkDownloadingJob == old(checkDownloadingJob)
      ensures !old(hasStartRepeatCheck) && isDownloadableWebsite(url) && isVideoDownloaderEnabled ==>
        hasStartRepeatCheck && activeJobs == {old(jobsStarted)} && checkDownloadingJob == Some(old(jobsStarted))
    {
      if !hasStartRepeatCheck && isDownloadableWebsite(url) && isVideoDownloaderEnabled {
        hasStartRepeatCheck := true;
        checkDownloadingJob := Some(jobsStarted);
        activeJobs := {jobsStarted};
        jobsStarted := jobsStarted + 1;
      }
    }

    /** `cancelButtonMonitor`: clears the flag and cancels the running check. */
    method CancelButtonMonitor()
      requires Valid()
      modifies this`hasStartRepeatCheck, this`activeJobs
      ensures Valid()
      ensures !hasStartRepeatCheck && activeJobs == {}
    {
      hasStartRepeatCheck := false;
      if checkDownloadingJob.Some? && checkDownloadingJob.value in activeJobs {
        activeJobs := activeJobs - {checkDownloadingJob.value};
      }
    }

    /**
     * `downloadFeature.onDownloadStopped`: first
     * `checkToReportDownloadContentType` reports the content type of a
     * download whose own status is COMPLETED; then a completed or failed
     * download of the current tab saves its dialog state, shows the dialog,
     * hides the FAB and stops the repeating check; anything else changes
     * nothing more.
     */
    method OnDownloadStopped(download: DownloadState, status: DownloadStatus, currentTabId: Option<string>)
      requires Valid()
      modifies this`downloadDialogState, this`dialogView, this`fabVisible,
               this`hasStartRepeatCheck, this`activeJobs, this`reports
      ensures Valid()
      ensures reports == old(reports) +
        (if download.status == Completed then [DownloadContentType(download.contentType)] else [])
      ensures !ShouldShowCompletedDownloadDialog(download, status, currentTabId) ==>
        downloadDialogState == old(downloadDialogState) && dialogView == old(dialogView) &&
        fabVisible == old(fabVisible) && hasStartRepeatCheck == old(hasStartRepeatCheck) &&
        activeJobs == old(activeJobs)
      ensures ShouldShowCompletedDownloadDialog(download, status, currentTabId) ==>
        downloadDialogState == old(downloadDialogState)[download.sessionId.value :=
          SavedDialog(Some(download), status == Failed)] &&
        dialogView == Some(DialogView(Some(download), status == Failed)) &&
        !fabVisible && !hasStartRepeatCheck && activeJobs == {}
    {
      if download.status == Completed {
        reports := reports + [DownloadContentType(download.contentType)];
      }
      if ShouldShowCompletedDownloadDialog(download, status, currentTabId) {
        SaveDownloadDialogState(download.sessionId, download, status);
        dialogView := Some(DialogView(Some(download), status == Failed));
        fabVisible := false;
        CancelButtonMonitor();
      }
    }

    /**
     * Dismissing the dialog that `OnDownloadStopped` showed. A download from
     * an Instagram image URL first reports a successful sniff with its
     * content type; `contentType!!` throws when there is none, and then the
     * rest of the callback does not run. Otherwise the download's session
     * entry is removed (nothing for a null session), the buttons are reset to
     * NORMAL and the repeating check restarts for the current URL.
     */
    method OnCompletedDialogDismiss(download: DownloadState) returns (outcome: DismissOutcome)
      requires Valid()
      modifies this`downloadDialogState, this`fabVisible, this`convertVisible, this`convertText,
               this`viewModelFabState, this`hasStartRepeatCheck, this`checkDownloadingJob,
               this`activeJobs, this`jobsStarted, this`reports
      ensures Valid()
      ensures outcome == ContentTypeMissing <==>
        isInstagramDownloadImageUrl(download.url) && download.contentType.None?
      ensures outcome == ContentTypeMissing ==>
        downloadDialogState == old(downloadDialogState) && reports == old(reports) &&
        fabVisible == old(fabVisible) && convertVisible == old(convertVisible) &&
        convertText == old(convertText) && viewModelFabState == old(viewModelFabState) &&
        hasStartRepeatCheck == old(hasStartRepeatCheck) && checkDownloadingJob == old(checkDownloadingJob) &&
        activeJobs == old(activeJobs) && jobsStarted == old(jobsStarted)
      ensures outcome == Dismissed ==>
        reports == old(reports) +
          (if isInstagramDownloadImageUrl(download.url) then [SniffDownloadSuccess(download.contentType.value)] else [])
      ensures outcome == Dismissed && download.sessionId.Some? ==>
        downloadDialogState == old(downloadDialogState) - {download.sessionId.value}
      ensures outcome == Dismissed && download.sessionId.None? ==>
        downloadDialogState == old(downloadDialogState)
      ensures outcome == Dismissed && isAdded && isDownloadableWebsite(currentWebUrl) && isVideoDownloaderEnabled ==>
        fabVisible && !convertVisible && viewModelFabState == Normal && hasStartRepeatCheck
      ensures outcome == Dismissed && !isAdded ==>
        fabVisible == old(fabVisible) && convertVisible == old(convertVisible) &&
        convertText == old(convertText) && viewModelFabState == old(viewModelFabState)
      ensures outcome == Dismissed && isAdded && isDownloadableWebsite(currentWebUrl) && isVideoDownloaderEnabled ==>
        convertText == ConvertingText
      ensures outcome == Dismissed && isAdded &&
              !(isDownloadableWebsite(currentWebUrl) && isVideoDownloaderEnabled) ==>
        !fabVisible && !convertVisible &&
        convertText == old(convertText) && viewModelFabState == old(viewModelFabState)
      ensures outcome == Dismissed &&
              (old(hasStartRepeatCheck) || !isDownloadableWebsite(currentWebUrl) || !isVideoDownloaderEnabled) ==>
        hasStartRepeatCheck == old(hasStartRepeatCheck) && activeJobs == old(activeJobs) &&
        checkDownloadingJob == old(checkDownloadingJob)
      ensures outcome == Dismissed &&
              !old(hasStartRepeatCheck) && isDownloadableWebsite(currentWebUrl) && isVideoDownloaderEnabled ==>
        hasStartRepeatCheck && activeJobs == {old(jobsStarted)} && checkDownloadingJob == Some(old(jobsStarted))
    {
      if isInstagramDownloadImageUrl(download.url) {
        if download.contentType.None? {
          return ContentTypeMissing;
        }
        reports := reports + [SniffDownloadSuccess(download.contentType.value)];
      }
      outcome := Dismissed;
      if download.sessionId.Some? {
        downloadDialogState := downloadDialogState - {download.sessionId.value};
      }
      SetFabState(Normal);
      MonitorButtonState(currentWebUrl);
    }

    /**
     * `removeSessionIfNeeded`, the last step of the back-press chain. An
     * external session that was not restored finishes the activity, is
     * removed, and the press is handled; otherwise a tab with a parent is
     * removed selecting its parent, and the press is handled; a session
     * without a parent, or no current tab, leaves the press to go home.
     */
    method RemoveSessionIfNeeded(currentTab: Option<Session>) returns (handled: bool)
      modifies this`removedTabs, this`activityFinished
      ensures currentTab.None? ==>
        !handled && removedTabs == old(removedTabs) && activityFinished == old(activityFinished)
      ensures currentTab.Some? && currentTab.value.isExternalSource && !currentTab.value.restored ==>
        handled && activityFinished &&
        removedTabs == old(removedTabs) + [RemoveTab(currentTab.value.id)]
      ensures currentTab.Some? && !(currentTab.value.isExternalSource && !currentTab.value.restored) ==>
        activityFinished == old(activityFinished) &&
        (handled <==> currentTab.value.isTab && currentTab.value.parentId.Some?) &&
        removedTabs == old(removedTabs) + (if handled then [RemoveTabSelectingParent(currentTab.value.id, true)] else [])
    {
      if currentTab.None? {
        return false;
      }
      var session := currentTab.value;
      if session.isExternalSource && !session.restored {
        activityFinished := true;
        removedTabs := removedTabs + [RemoveTab(session.id)];
        handled := true;
      } else {
        var hasParentSession := session.isTab && session.parentId.Some?;
        if hasParentSession {
          removedTabs := removedTabs + [RemoveTabSelectingParent(session.id, true)];
        }
        var goToOverview := !hasParentSession;
        handled := !goToOverview;
      }
    }
  }
}
