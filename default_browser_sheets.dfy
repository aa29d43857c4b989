/**
 * The two rate-limited "set as default browser" bottom sheets
 * (`checkToShowSetDefaultBrowserSheetDialogFragment` and
 * `checkToShowDefaultBrowserSheetDialogFragment`) and `setAfterUpdatingTheme`.
 * Each check reads and writes shared preferences step by step: a once-per-
 * cold-start flag, a flag that skips the check after a theme change, and a
 * per-day show counter with the time of the first showing of the day.
 */
module DefaultBrowserSheets {

  /**
   * The shared preferences the checks use, one field per key, each starting
   * at the default the code reads it with. Both checks use the same
   * "has checked after cold start" and "after updating theme" keys.
   */
  class SharedPreferences {
    var hasCheckedAfterColdStart: bool
    var isAfterUpdatingTheme: bool
    var isFirstTimeToShowSetDefault: bool
    var setDefaultFirstTime: int
    var setDefaultCount: int
    var defaultFirstTime: int
    var defaultCount: int

    constructor ()
      ensures !hasCheckedAfterColdStart && !isAfterUpdatingTheme && isFirstTimeToShowSetDefault
      ensures setDefaultFirstTime == 0 && setDefaultCount == 0
      ensures defaultFirstTime == 0 && defaultCount == 0
    {
      hasCheckedAfterColdStart := false;
      isAfterUpdatingTheme := false;
      isFirstTimeToShowSetDefault := true;
      setDefaultFirstTime := 0;
      setDefaultCount := 0;
      defaultFirstTime := 0;
      defaultCount := 0;
    }
  }

  /** The sheets the checks navigate to. */
  datatype Destination = SetDefaultBrowserSheet | DefaultBrowserSheet

  /** The navigation controller, as the list of destinations it was sent to. */
  class NavController {
    var destinations: seq<Destination>

    constructor ()
      ensures destinations == []
    {
      destinations := [];
    }
  }

  /** `TimeUnit.DAYS.toSeconds(1)`. */
  const DAY_IN_SECONDS: int := 86_400
  /** `TimeUnit.DAYS.toMillis(1)`. */
  const DAY_IN_MILLIS: int := 86_400_000

  // ---------------------------------------------------------------------
  // The daily counter both checks share
  // ---------------------------------------------------------------------

  /** The stored time of the first showing in the current window and the count. */
  datatype CapState = CapState(firstTime: int, count: int)

  datatype CapOutcome = CapOutcome(shown: bool, next: CapState)

  /** The count after the reset rule: 0 once more than `window` has passed. */
  function CountAfterReset(s: CapState, now: int, window: int): int {
    if now - s.firstTime > window then 0 else s.count
  }

  /**
   * The counter part of a check at time `now` (milliseconds): reset the
   * count when the window is over, show iff the count is below `maxCount`,
   * then count the showing and, for the first showing of a window, remember
   * its time.
   */
  function CapStep(s: CapState, now: int, window: int, maxCount: int): (o: CapOutcome)
    ensures o.shown <==> CountAfterReset(s, now, window) < maxCount
    ensures o.shown ==> o.next.count == CountAfterReset(s, now, window) + 1 && o.next.count <= maxCount
    ensures !o.shown ==> o.next.count == CountAfterReset(s, now, window)
    ensures o.next.firstTime != s.firstTime ==>
      o.shown && CountAfterReset(s, now, window) == 0 && o.next.firstTime == now
  {
    var count := CountAfterReset(s, now, window);
    if count < maxCount then
      CapOutcome(true, CapState(if count == 0 then now else s.firstTime, count + 1))
    else
      CapOutcome(false, CapState(s.firstTime, count))
  }

  /** The number of showings over a series of checks at the times `nows`. */
  function Showings(s: CapState, nows: seq<int>, window: int, maxCount: int): nat
    decreases |nows|
  {
    if nows == [] then 0
    else
      var o := CapStep(s, nows[0], window, maxCount);
      (if o.shown then 1 else 0) + Showings(o.next, nows[1..], window, maxCount)
  }

  /**
   * Within one window the counter caps the showings: once a window has
   * started (count at least 1), checks that all fall within `window` of its
   * first showing show the sheet at most `maxCount - count` more times.
   */
  lemma {:induction false} ShowingsWithinWindowBounded(s: CapState, nows: seq<int>, window: int, maxCount: int)
    requires s.count >= 1
    requires forall i :: 0 <= i < |nows| ==> nows[i] - s.firstTime <= window
    ensures Showings(s, nows, window, maxCount) <= if maxCount > s.count then maxCount - s.count else 0
    decreases |nows|
  {
    if nows != [] {
      var o := CapStep(s, nows[0], window, maxCount);
      assert CountAfterReset(s, nows[0], window) == s.count;
      assert o.next.firstTime == s.firstTime;
      forall i | 0 <= i < |nows[1..]| ensures nows[1..][i] - o.next.firstTime <= window {
        assert nows[1..][i] == nows[i + 1];
      }
      ShowingsWithinWindowBounded(o.next, nows[1..], window, maxCount);
    }
  }

  /**
   * With a one-day window in milliseconds, the sheet is shown at most
   * `maxCount` times in the day that starts at the first showing.
   */
  lemma DailyCapHolds(s: CapState, firstShow: int, later: seq<int>, maxCount: int)
    requires CountAfterReset(s, firstShow, DAY_IN_MILLIS) == 0 && maxCount >= 1
    requires forall i :: 0 <= i < |later| ==> later[i] - firstShow <= DAY_IN_MILLIS
    ensures Showings(s, [firstShow] + later, DAY_IN_MILLIS, maxCount) <= maxCount
  {
    var o := CapStep(s, firstShow, DAY_IN_MILLIS, maxCount);
    assert o.shown && o.next == CapState(firstShow, 1);
    assert ([firstShow] + later)[1..] == later;
    ShowingsWithinWindowBounded(o.next, later, DAY_IN_MILLIS, maxCount);
  }

  /**
   * The window `checkToShowSetDefaultBrowserSheetDialogFragment` uses is
   * `TimeUnit.DAYS.toSeconds(1)` compared with a difference of
   * `currentTimeMillis` values, so it is 86.4 seconds long: with a cap of
   * one showing, two checks 100 seconds apart both show the sheet.
   */
  lemma SetDefaultWindowIsSeconds()
    ensures var first := CapStep(CapState(0, 0), 1_000_000, DAY_IN_SECONDS, 1);
            var second := CapStep(first.next, 1_100_000, DAY_IN_SECONDS, 1);
            first.shown && second.shown && first.next.count == 1 && second.next.count == 1
    ensures var first := CapStep(CapState(0, 0), 1_000_000, DAY_IN_MILLIS, 1);
            var second := CapStep(first.next, 1_100_000, DAY_IN_MILLIS, 1);
            first.shown && !second.shown
  {
  }

  // ---------------------------------------------------------------------
  // The checks
  // ---------------------------------------------------------------------

  /** `Context.setAfterUpdatingTheme`: the next check is skipped. */
  method SetAfterUpdatingTheme(sp: SharedPreferences)
    modifies sp`isAfterUpdatingTheme
    ensures sp.isAfterUpdatingTheme
  {
    sp.isAfterUpdatingTheme := true;
  }

  /**
   * `checkToShowSetDefaultBrowserSheetDialogFragment` at time `now` with the
   * remote-config cap `maxCount`. The steps, each ending the check when it
   * applies: nothing while the default-browser prompt is blocking; nothing
   * after the first check of a cold start (which sets the flag); consume the
   * after-theme flag; consume the first-time flag (default true); then the
   * daily counter with a window of `DAY_IN_SECONDS`.
   */
  method CheckToShowSetDefaultBrowserSheet(
    sp: SharedPreferences, nav: NavController,
    isDefaultBrowserBlocking: bool, now: int, maxCount: int)
    modifies sp`hasCheckedAfterColdStart, sp`isAfterUpdatingTheme, sp`isFirstTimeToShowSetDefault,
             sp`setDefaultFirstTime, sp`setDefaultCount, nav`destinations
    ensures isDefaultBrowserBlocking || old(sp.hasCheckedAfterColdStart) ==>
      unchanged(sp) && nav.destinations == old(nav.destinations)
    ensures !isDefaultBrowserBlocking ==> sp.hasCheckedAfterColdStart
    ensures !isDefaultBrowserBlocking && !old(sp.hasCheckedAfterColdStart) &&
            (old(sp.isAfterUpdatingTheme) || old(sp.isFirstTimeToShowSetDefault)) ==>
      nav.destinations == old(nav.destinations) &&
      sp.setDefaultFirstTime == old(sp.setDefaultFirstTime) && sp.setDefaultCount == old(sp.setDefaultCount)
    ensures !isDefaultBrowserBlocking && !old(sp.hasCheckedAfterColdStart) && old(sp.isAfterUpdatingTheme) ==>
      !sp.isAfterUpdatingTheme && sp.isFirstTimeToShowSetDefault == old(sp.isFirstTimeToShowSetDefault)
    ensures !isDefaultBrowserBlocking && !old(sp.hasCheckedAfterColdStart) && !old(sp.isAfterUpdatingTheme) ==>
      !sp.isAfterUpdatingTheme && !sp.isFirstTimeToShowSetDefault
    ensures !isDefaultBrowserBlocking && !old(sp.hasCheckedAfterColdStart) && !old(sp.isAfterUpdatingTheme) &&
            !old(sp.isFirstTimeToShowSetDefault) ==>
      var o := CapStep(CapState(old(sp.setDefaultFirstTime), old(sp.setDefaultCount)), now, DAY_IN_SECONDS, maxCount);
      sp.setDefaultFirstTime == o.next.firstTime && sp.setDefaultCount == o.next.count &&
      nav.destinations == old(nav.destinations) + (if o.shown then [SetDefaultBrowserSheet] else [])
  {
    if isDefaultBrowserBlocking {
      return;
    }
    if sp.hasCheckedAfterColdStart {
      return;
    } else {
      sp.hasCheckedAfterColdStart := true;
    }
    if sp.isAfterUpdatingTheme {
      sp.isAfterUpdatingTheme := false;
      return;
    }
    if sp.isFirstTimeToShowSetDefault {
      sp.isFirstTimeToShowSetDefault := false;
      return;
    }
    var firstTime := sp.setDefaultFirstTime;
    var time := now;
    if time - firstTime > DAY_IN_SECONDS {
      sp.setDefaultCount := 0;
    }
    var count := sp.setDefaultCount;
    if count < maxCount {
      nav.destinations := nav.destinations + [SetDefaultBrowserSheet];
      sp.setDefaultCount := count + 1;
      if count == 0 {
        sp.setDefaultFirstTime := time;
      }
    }
  }

  /**
   * `checkToShowDefaultBrowserSheetDialogFragment`: the same steps without
   * the first-time skip, on its own counter keys, with a window of
   * `DAY_IN_MILLIS`.
   */
  method CheckToShowDefaultBrowserSheet(
    sp: SharedPreferences, nav: NavController,
    isDefaultBrowserBlocking: bool, now: int, maxCount: int)
    modifies sp`hasCheckedAfterColdStart, sp`isAfterUpdatingTheme,
             sp`defaultFirstTime, sp`defaultCount, nav`destinations
    ensures isDefaultBrowserBlocking || old(sp.hasCheckedAfterColdStart) ==>
      unchanged(sp) && nav.destinations == old(nav.destinations)
    ensures !isDefaultBrowserBlocking ==> sp.hasCheckedAfterColdStart
    ensures !isDefaultBrowserBlocking && !old(sp.hasCheckedAfterColdStart) && old(sp.isAfterUpdatingTheme) ==>
      !sp.isAfterUpdatingTheme && nav.destinations == old(nav.destinations) &&
      sp.defaultFirstTime == old(sp.defaultFirstTime) && sp.defaultCount == old(sp.defaultCount)
    ensures !isDefaultBrowserBlocking && !old(sp.hasCheckedAfterColdStart) && !old(sp.isAfterUpdatingTheme) ==>
      var o := CapStep(CapState(old(sp.defaultFirstTime), old(sp.defaultCount)), now, DAY_IN_MILLIS, maxCount);
      !sp.isAfterUpdatingTheme &&
      sp.defaultFirstTime == o.next.firstTime && sp.defaultCount == o.next.count &&
      nav.destinations == old(nav.destinations) + (if o.shown then [DefaultBrowserSheet] else [])
  {
    if isDefaultBrowserBlocking {
      return;
    }
    if sp.hasCheckedAfterColdStart {
      return;
    } else {
      sp.hasCheckedAfterColdStart := true;
    }
    if sp.isAfterUpdatingTheme {
      sp.isAfterUpdatingTheme := false;
      return;
    }
    var firstTime := sp.defaultFirstTime;
    var time := now;
    if time - firstTime > DAY_IN_MILLIS {
      sp.defaultCount := 0;
    }
    var count := sp.defaultCount;
    if count < maxCount {
      nav.destinations := nav.destinations + [DefaultBrowserSheet];
      sp.defaultCount := count + 1;
      if count == 0 {
        sp.defaultFirstTime := time;
      }
    }
  }

  /**
   * Without the first-time skip, the very first check on fresh preferences
   * already shows the sheet whenever the cap allows one showing.
   */
  method FirstDefaultCheckShows(now: int, maxCount: int) returns (shown: bool)
    requires maxCount >= 1
    ensures shown
  {
    var sp := new SharedPreferences();
    var nav := new NavController();
    CheckToShowDefaultBrowserSheet(sp, nav, false, now, maxCount);
    shown := nav.destinations == [DefaultBrowserSheet];
  }

  /**
   * With the first-time skip, the first check on fresh preferences never
   * shows; the one of the next cold start can.
   */
  method FirstSetDefaultCheckSkips(now: int, maxCount: int) returns (shown: bool)
    ensures !shown
  {
    var sp := new SharedPreferences();
    var nav := new NavController();
    CheckToShowSetDefaultBrowserSheet(sp, nav, false, now, maxCount);
    shown := nav.destinations != [];
  }
}
