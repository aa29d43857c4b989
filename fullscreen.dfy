/**
 * `MaxFullscreenFeature`: remembers the last observed fullscreen state of the
 * tracked tab and reports only its changes, leaves fullscreen on back press,
 * locks the screen orientation from the fullscreen media session, and keeps
 * the screen on while that session plays.
 */
module Fullscreen {
  import opened Optional
  import opened SeqUtil

  /** `MediaSession.PlaybackState`. */
  datatype PlaybackState = Unknown | Playing | Paused | Stopped

  /** The parts of a `MediaSessionState` the feature reads. */
  datatype MediaSessionState = MediaSessionState(
    fullscreen: bool,
    portrait: Option<bool>,
    playbackState: PlaybackState)

  /** The parts of a tab or custom tab (`SessionState`) the feature reads. */
  datatype SessionState = SessionState(
    id: string,
    fullScreen: bool,
    layoutInDisplayCutoutMode: int,
    mediaSessionState: Option<MediaSessionState>)

  /** The last values observed for the tracked tab. */
  datatype Observation = Observation(
    tabId: Option<string>,
    inFullScreen: bool,
    layoutInDisplayCutoutMode: int)

  /** `ActivityInfo.SCREEN_ORIENTATION_*` values the feature requests. */
  datatype Orientation = OrientationUser | OrientationUserPortrait | OrientationSensorLandscape
                       | OrientationUnspecified | OrientationOther(value: int)

  /** `Build.VERSION_CODES.N`. */
  const VERSION_CODES_N: int := 24

  /** `createDefaultObservation`: no tab, not fullscreen, cutout mode 0. */
  function DefaultObservation(): (r: Observation)
    ensures r.tabId.None? && !r.inFullScreen && r.layoutInDisplayCutoutMode == 0
  {
    Observation(None, false, 0)
  }

  /** `SessionState?.toObservation`: a missing session maps to the default. */
  function ToObservation(session: Option<SessionState>): (r: Observation)
    ensures session.None? ==> r == DefaultObservation()
    ensures session.Some? ==>
      r.tabId == Some(session.value.id) && r.inFullScreen == session.value.fullScreen &&
      r.layoutInDisplayCutoutMode == session.value.layoutInDisplayCutoutMode
  {
    match session
    case None => DefaultObservation()
    case Some(s) => Observation(Some(s.id), s.fullScreen, s.layoutInDisplayCutoutMode)
  }

  predicate IsFullscreenMedia(s: SessionState) {
    s.mediaSessionState.Some? && s.mediaSessionState.value.fullscreen
  }

  /**
   * The session list the store observer hands on: the tabs and custom tabs
   * whose media session is in fullscreen, in store order.
   */
  function FullscreenSessions(tabs: seq<SessionState>, customTabs: seq<SessionState>): (r: seq<SessionState>)
    ensures forall i :: 0 <= i < |r| ==> IsFullscreenMedia(r[i])
    ensures forall s :: s in r ==> IsFullscreenMedia(s) && s in tabs + customTabs
    ensures forall s :: s in tabs + customTabs && IsFullscreenMedia(s) ==> s in r
  {
    var all := tabs + customTabs;
    var r := Filter(all, IsFullscreenMedia);
    forall s | s in all && IsFullscreenMedia(s) ensures s in r {
      FilterKeeps(all, IsFullscreenMedia, s);
    }
    r
  }

  /**
   * `isMediaSessionExist`: scans every tab and custom tab; the
   * `return@forEach` only skips to the next element.
   */
  method IsMediaSessionExist(tabs: seq<SessionState>, customTabs: seq<SessionState>) returns (result: bool)
    ensures result <==> exists i :: 0 <= i < |tabs + customTabs| && (tabs + customTabs)[i].mediaSessionState.Some?
  {
    var all := tabs + customTabs;
    result := false;
    var k := 0;
    while k < |all|
      invariant 0 <= k <= |all|
      invariant result <==> exists i :: 0 <= i < k && all[i].mediaSessionState.Some?
    {
      if all[k].mediaSessionState.Some? {
        result := true;
      }
      k := k + 1;
    }
  }

  /** The orientation a fullscreen media session of the tracked tab asks for. */
  function OrientationFor(portrait: Option<bool>, sdkInt: int, inPictureInPicture: bool): (r: Orientation)
    ensures portrait == Some(true) ==> r == OrientationUserPortrait
    ensures portrait == Some(false) ==>
      r == (if sdkInt >= VERSION_CODES_N && inPictureInPicture then OrientationUnspecified
            else OrientationSensorLandscape)
    ensures portrait.None? ==> r == OrientationUser
  {
    match portrait
    case Some(true) => OrientationUserPortrait
    case Some(false) =>
      if sdkInt >= VERSION_CODES_N && inPictureInPicture then OrientationUnspecified
      else OrientationSensorLandscape
    case None => OrientationUser
  }

  /** A landscape lock is only ever lifted to "unspecified" in picture-in-picture. */
  lemma OrientationUnspecifiedOnlyInPip(portrait: Option<bool>, sdkInt: int, inPictureInPicture: bool)
    ensures OrientationFor(portrait, sdkInt, inPictureInPicture) == OrientationUnspecified <==>
      portrait == Some(false) && sdkInt >= VERSION_CODES_N && inPictureInPicture
  {
  }

  /**
   * The feature. The activity's requested orientation and keep-screen-on
   * window flag are fields; the `fullScreenChanged`, `viewportFitChanged`
   * and `exitFullscreen` callbacks are logs of their arguments.
   */
  class MaxFullscreenFeature {
    var observation: Observation
    var requestedOrientation: Orientation
    var keepScreenOn: bool
    var fullScreenChangedCalls: seq<bool>
    var viewportFitChangedCalls: seq<int>
    var exitFullscreenCalls: seq<string>

    constructor (requestedOrientation: Orientation, keepScreenOn: bool)
      ensures observation == DefaultObservation()
      ensures this.requestedOrientation == requestedOrientation && this.keepScreenOn == keepScreenOn
      ensures fullScreenChangedCalls == [] && viewportFitChangedCalls == [] && exitFullscreenCalls == []
    {
      observation := DefaultObservation();
      this.requestedOrientation := requestedOrientation;
      this.keepScreenOn := keepScreenOn;
      fullScreenChangedCalls := [];
      viewportFitChangedCalls := [];
      exitFullscreenCalls := [];
    }

    /**
     * `onChange`: reports the fullscreen flag and the cutout mode each only
     * when it differs from the remembered observation, then remembers the
     * new one.
     */
    method OnChange(next: Observation)
      modifies this`observation, this`fullScreenChangedCalls, this`viewportFitChangedCalls
      ensures observation == next
      ensures fullScreenChangedCalls == old(fullScreenChangedCalls) +
        (if next.inFullScreen != old(observation).inFullScreen then [next.inFullScreen] else [])
      ensures viewportFitChangedCalls == old(viewportFitChangedCalls) +
        (if next.layoutInDisplayCutoutMode != old(observation).layoutInDisplayCutoutMode
         then [next.layoutInDisplayCutoutMode] else [])
    {
      if next.inFullScreen != observation.inFullScreen {
        fullScreenChangedCalls := fullScreenChangedCalls + [next.inFullScreen];
      }
      if next.layoutInDisplayCutoutMode != observation.layoutInDisplayCutoutMode {
        viewportFitChangedCalls := viewportFitChangedCalls + [next.layoutInDisplayCutoutMode];
      }
      observation := next;
    }

    /**
     * `onBackPressed`: consumes the press exactly when the remembered tab is
     * in fullscreen, and then asks that tab to leave fullscreen.
     */
    method OnBackPressed() returns (handled: bool)
      modifies this`exitFullscreenCalls
      ensures handled <==> observation.inFullScreen && observation.tabId.Some?
      ensures exitFullscreenCalls == old(exitFullscreenCalls) +
        (if handled then [observation.tabId.value] else [])
    {
      var current := observation;
      if current.inFullScreen && current.tabId.Some? {
        exitFullscreenCalls := exitFullscreenCalls + [current.tabId.value];
        return true;
      }
      return false;
    }

    /**
     * `processFullscreen` for one store emission: the tracked tab's
     * observation, the fullscreen sessions, the id of the tab the feature
     * follows (`findCustomTabOrSelectedTab(tabId)?.id`), the SDK level and
     * picture-in-picture mode.
     */
    method ProcessFullscreen(
      tracked: Observation, sessions: seq<SessionState>, followedTabId: Option<string>,
      sdkInt: int, inPictureInPicture: bool)
      modifies this`requestedOrientation, this`observation, this`fullScreenChangedCalls,
               this`viewportFitChangedCalls
      ensures sessions == [] || !IsFullscreenMedia(sessions[0]) ==>
        requestedOrientation == OrientationUser && observation == old(observation) &&
        fullScreenChangedCalls == old(fullScreenChangedCalls) &&
        viewportFitChangedCalls == old(viewportFitChangedCalls)
      ensures sessions != [] && IsFullscreenMedia(sessions[0]) ==>
        observation == tracked &&
        requestedOrientation ==
          (if followedTabId == Some(sessions[0].id)
           then OrientationFor(sessions[0].mediaSessionState.value.portrait, sdkInt, inPictureInPicture)
           else old(requestedOrientation)) &&
        fullScreenChangedCalls == old(fullScreenChangedCalls) +
          (if tracked.inFullScreen != old(observation).inFullScreen
           then [tracked.inFullScreen] else []) &&
        viewportFitChangedCalls == old(viewportFitChangedCalls) +
          (if tracked.layoutInDisplayCutoutMode != old(observation).layoutInDisplayCutoutMode
           then [tracked.layoutInDisplayCutoutMode] else [])
    {
      if sessions == [] || !IsFullscreenMedia(sessions[0]) {
        requestedOrientation := OrientationUser;
        return;
      }
      var activeState := sessions[0];
      if followedTabId == Some(activeState.id) {
        match activeState.mediaSessionState.value.portrait
        case Some(true) =>
          requestedOrientation := OrientationUserPortrait;
        case Some(false) =>
          if sdkInt >= VERSION_CODES_N && inPictureInPicture {
            requestedOrientation := OrientationUnspecified;
          } else {
            requestedOrientation := OrientationSensorLandscape;
          }
        case None =>
          requestedOrientation := OrientationUser;
      }
      if |sessions| > 0 {
        OnChange(tracked);
      } else {
        // `!isMediaSessionExist(store)` is never evaluated: an empty list
        // has already returned above.
        assert false;
      }
    }

    /**
     * `processDeviceSleepMode`: with a fullscreen media session first in the
     * list, the screen is kept on iff it is playing; otherwise the flag is
     * left alone.
     */
    method ProcessDeviceSleepMode(sessions: seq<SessionState>)
      modifies this`keepScreenOn
      ensures sessions == [] || !IsFullscreenMedia(sessions[0]) ==> keepScreenOn == old(keepScreenOn)
      ensures sessions != [] && IsFullscreenMedia(sessions[0]) ==>
        (keepScreenOn <==> sessions[0].mediaSessionState.value.playbackState == Playing)
    {
      if sessions == [] || !IsFullscreenMedia(sessions[0]) {
        return;
      }
      var activeTabState := sessions[0];
      match activeTabState.mediaSessionState.value.playbackState
      case Playing => keepScreenOn := true;
      case _ => keepScreenOn := false;
    }

    /**
     * One store emission as the observer handles it: the fullscreen sessions
     * are computed from the store, then both processing steps run.
     */
    method OnStoreEmission(
      trackedSession: Option<SessionState>, followedTabId: Option<string>,
      sdkInt: int, inPictureInPicture: bool,
      tabs: seq<SessionState>, customTabs: seq<SessionState>)
      modifies this`requestedOrientation, this`observation, this`fullScreenChangedCalls,
               this`viewportFitChangedCalls, this`keepScreenOn
      ensures FullscreenSessions(tabs, customTabs) == [] ==>
        observation == old(observation) && keepScreenOn == old(keepScreenOn) &&
        requestedOrientation == OrientationUser &&
        fullScreenChangedCalls == old(fullScreenChangedCalls) &&
        viewportFitChangedCalls == old(viewportFitChangedCalls)
      ensures FullscreenSessions(tabs, customTabs) != [] ==>
        var active := FullscreenSessions(tabs, customTabs)[0];
        var next := ToObservation(trackedSession);
        observation == next &&
        (keepScreenOn <==> active.mediaSessionState.value.playbackState == Playing) &&
        requestedOrientation ==
          (if followedTabId == Some(active.id)
           then OrientationFor(active.mediaSessionState.value.portrait, sdkInt, inPictureInPicture)
           else old(requestedOrientation)) &&
        fullScreenChangedCalls == old(fullScreenChangedCalls) +
          (if next.inFullScreen != old(observation).inFullScreen
           then [next.inFullScreen] else []) &&
        viewportFitChangedCalls == old(viewportFitChangedCalls) +
          (if next.layoutInDisplayCutoutMode != old(observation).layoutInDisplayCutoutMode
           then [next.layoutInDisplayCutoutMode] else [])
    {
      var sessions := FullscreenSessions(tabs, customTabs);
      ProcessFullscreen(ToObservation(trackedSession), sessions, followedTabId, sdkInt,
                        inPictureInPicture);
      ProcessDeviceSleepMode(sessions);
    }
  }
}
