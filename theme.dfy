/**
 * `ThemeManager`: the style resource for the browsing mode, the status and
 * navigation bar styling for the mode and night setting, and the
 * `DefaultThemeManager` switch that records the mode in the activity's
 * intent and recreates the activity.
 */
module Theme {
  import opened Optional

  datatype BrowsingMode = Normal | Private

  datatype ToolbarPosition = Top | Bottom

  /** The style resources `currentThemeResource` picks from. */
  datatype StyleRes = NormalTheme | PrivateTopTheme | PrivateBottomTheme | PrivateTheme

  /** `currentThemeResource`; `isMaxChannel` is `Config.channel.isMax`. */
  function CurrentThemeResource(mode: BrowsingMode, isMaxChannel: bool, toolbarPosition: ToolbarPosition): (r: StyleRes)
    ensures mode == Normal ==> r == NormalTheme
    ensures mode == Private && isMaxChannel ==>
      r == (if toolbarPosition == Top then PrivateTopTheme else PrivateBottomTheme)
    ensures mode == Private && !isMaxChannel ==> r == PrivateTheme
  {
    match mode
    case Normal => NormalTheme
    case Private =>
      if isMaxChannel then
        match toolbarPosition
        case Top => PrivateTopTheme
        case Bottom => PrivateBottomTheme
      else PrivateTheme
  }

  /** The resource tells the mode back: only normal browsing uses `NormalTheme`. */
  lemma ThemeResourceDeterminesMode(mode: BrowsingMode, isMaxChannel: bool, toolbarPosition: ToolbarPosition)
    ensures CurrentThemeResource(mode, isMaxChannel, toolbarPosition) == NormalTheme <==> mode == Normal
    ensures mode == Private && isMaxChannel ==>
      (CurrentThemeResource(mode, isMaxChannel, toolbarPosition) == PrivateTopTheme <==> toolbarPosition == Top)
  {
  }

  // ---------------------------------------------------------------------
  // Status and navigation bars
  // ---------------------------------------------------------------------

  /** `Configuration.UI_MODE_NIGHT_*`. */
  const UI_MODE_NIGHT_MASK: bv32 := 0x30
  const UI_MODE_NIGHT_UNDEFINED: bv32 := 0x00
  const UI_MODE_NIGHT_NO: bv32 := 0x10
  const UI_MODE_NIGHT_YES: bv32 := 0x20

  /** `Build.VERSION_CODES.M` and `O`. */
  const VERSION_CODES_M: int := 23
  const VERSION_CODES_O: int := 26

  /** The colours the bars are given. */
  datatype Color = Black | Transparent | StatusBarColorAttr | Layer1 | DayLightLayer1 | OtherColor(value: int)

  /** The bar properties of a window. */
  datatype Bars = Bars(statusBarColor: Color, lightStatusBars: bool, lightNavigationBars: bool, navigationBarColor: Color)

  /** `updateLightSystemBars`, with `updateLightNavigationBar` inside it. */
  function LightBars(b: Bars, sdkInt: int, isMaxChannel: bool): Bars {
    var b1 := if sdkInt >= VERSION_CODES_M then b.(statusBarColor := StatusBarColorAttr, lightStatusBars := true)
              else b.(statusBarColor := Black);
    if sdkInt >= VERSION_CODES_O then
      b1.(lightNavigationBars := true, navigationBarColor := if isMaxChannel then DayLightLayer1 else Layer1)
    else b1
  }

  /** `clearLightSystemBars` followed by `updateNavigationBar`. */
  function DarkBars(b: Bars, sdkInt: int): Bars {
    var b1 := if sdkInt >= VERSION_CODES_M then b.(statusBarColor := Transparent, lightStatusBars := false) else b;
    var b2 := if sdkInt >= VERSION_CODES_O then b1.(lightNavigationBars := false) else b1;
    b2.(navigationBarColor := Layer1)
  }

  /** The bars `applyStatusBarTheme` leaves for the mode and `uiMode`. */
  function ThemedBars(b: Bars, mode: BrowsingMode, uiMode: bv32, sdkInt: int, isMaxChannel: bool): Bars {
    var night := uiMode & UI_MODE_NIGHT_MASK;
    if mode == Private || night == UI_MODE_NIGHT_YES then DarkBars(b, sdkInt)
    else if night == UI_MODE_NIGHT_UNDEFINED || night == UI_MODE_NIGHT_NO then LightBars(b, sdkInt, isMaxChannel)
    else b
  }

  /**
   * Private browsing, and normal browsing at night, get dark bars: no light
   * status or navigation bars where the platform has them, and the layer-1
   * navigation bar; normal browsing by day or with the night setting
   * undefined gets light ones; the night bits 0x30 match no branch.
   */
  lemma ThemedBarsProps(b: Bars, mode: BrowsingMode, uiMode: bv32, sdkInt: int, isMaxChannel: bool)
    ensures var night := uiMode & UI_MODE_NIGHT_MASK;
      var r := ThemedBars(b, mode, uiMode, sdkInt, isMaxChannel);
      && (mode == Private || night == UI_MODE_NIGHT_YES ==>
            r.navigationBarColor == Layer1 &&
            (sdkInt >= VERSION_CODES_M ==> !r.lightStatusBars && r.statusBarColor == Transparent) &&
            (sdkInt >= VERSION_CODES_O ==> !r.lightNavigationBars))
      && (mode == Normal && (night == UI_MODE_NIGHT_NO || night == UI_MODE_NIGHT_UNDEFINED) ==>
            (sdkInt >= VERSION_CODES_M ==> r.lightStatusBars && r.statusBarColor == StatusBarColorAttr) &&
            (sdkInt < VERSION_CODES_M ==> r.statusBarColor == Black) &&
            (sdkInt >= VERSION_CODES_O ==> r.lightNavigationBars))
      && (mode == Normal && night == UI_MODE_NIGHT_MASK ==> r == b)
  {
  }

  /** Styling the bars a second time changes nothing. */
  lemma ThemedBarsIdempotent(b: Bars, mode: BrowsingMode, uiMode: bv32, sdkInt: int, isMaxChannel: bool)
    ensures var once := ThemedBars(b, mode, uiMode, sdkInt, isMaxChannel);
      ThemedBars(once, mode, uiMode, sdkInt, isMaxChannel) == once
  {
  }

  /** The bar properties of an Android `Window`. */
  class Window {
    var statusBarColor: Color
    var lightStatusBars: bool
    var lightNavigationBars: bool
    var navigationBarColor: Color

    constructor (b: Bars)
      ensures GetBars() == b
    {
      statusBarColor := b.statusBarColor;
      lightStatusBars := b.lightStatusBars;
      lightNavigationBars := b.lightNavigationBars;
      navigationBarColor := b.navigationBarColor;
    }

    function GetBars(): (b: Bars)
      reads this
      ensures b.statusBarColor == statusBarColor && b.lightStatusBars == lightStatusBars
      ensures b.lightNavigationBars == lightNavigationBars && b.navigationBarColor == navigationBarColor
    {
      Bars(statusBarColor, lightStatusBars, lightNavigationBars, navigationBarColor)
    }

    method UpdateLightSystemBars(sdkInt: int, isMaxChannel: bool)
      modifies this
      ensures GetBars() == LightBars(old(GetBars()), sdkInt, isMaxChannel)
    {
      if sdkInt >= VERSION_CODES_M {
        statusBarColor := StatusBarColorAttr;
        lightStatusBars := true;
      } else {
        statusBarColor := Black;
      }
      if sdkInt >= VERSION_CODES_O {
        lightNavigationBars := true;
        UpdateLightNavigationBar(isMaxChannel);
      }
    }

    method ClearLightSystemBars(sdkInt: int)
      modifies this
      ensures GetBars() == (var b := old(GetBars());
        var b1 := if sdkInt >= VERSION_CODES_M then b.(statusBarColor := Transparent, lightStatusBars := false) else b;
        if sdkInt >= VERSION_CODES_O then b1.(lightNavigationBars := false) else b1)
    {
      if sdkInt >= VERSION_CODES_M {
        statusBarColor := Transparent;
        lightStatusBars := false;
      }
      if sdkInt >= VERSION_CODES_O {
        lightNavigationBars := false;
      }
    }

    method UpdateNavigationBar()
      modifies this
      ensures GetBars() == old(GetBars()).(navigationBarColor := Layer1)
    {
      navigationBarColor := Layer1;
    }

    method UpdateLightNavigationBar(isMaxChannel: bool)
      modifies this
      ensures GetBars() == old(GetBars()).(navigationBarColor := if isMaxChannel then DayLightLayer1 else Layer1)
    {
      if isMaxChannel {
        navigationBarColor := DayLightLayer1;
      } else {
        navigationBarColor := Layer1;
      }
    }
  }

  /** `applyStatusBarTheme(window, context)` for the current mode. */
  method ApplyStatusBarTheme(window: Window, mode: BrowsingMode, uiMode: bv32, sdkInt: int, isMaxChannel: bool)
    modifies window
    ensures window.GetBars() == ThemedBars(old(window.GetBars()), mode, uiMode, sdkInt, isMaxChannel)
  {
    match mode {
      case Normal =>
        var night := uiMode & UI_MODE_NIGHT_MASK;
        if night == UI_MODE_NIGHT_UNDEFINED || night == UI_MODE_NIGHT_NO {
          window.UpdateLightSystemBars(sdkInt, isMaxChannel);
        } else if night == UI_MODE_NIGHT_YES {
          window.ClearLightSystemBars(sdkInt);
          window.UpdateNavigationBar();
        }
      case Private =>
        window.ClearLightSystemBars(sdkInt);
        window.UpdateNavigationBar();
    }
  }

  // ---------------------------------------------------------------------
  // DefaultThemeManager
  // ---------------------------------------------------------------------

  /** The parts of the activity the theme switch touches. */
  class Activity {
    const isExternalAppBrowser: bool
    var isFinishing: bool
    /** The intent's `PRIVATE_BROWSING_MODE` extra, if written. */
    var privateBrowsingExtra: Option<bool>
    var recreations: nat

    constructor (isExternalAppBrowser: bool, isFinishing: bool)
      ensures this.isExternalAppBrowser == isExternalAppBrowser && this.isFinishing == isFinishing
      ensures privateBrowsingExtra.None? && recreations == 0
    {
      this.isExternalAppBrowser := isExternalAppBrowser;
      this.isFinishing := isFinishing;
      privateBrowsingExtra := None;
      recreations := 0;
    }
  }

  class DefaultThemeManager {
    const activity: Activity
    var currentTheme: BrowsingMode

    /** Once the activity was recreated, its intent says whether the theme is private. */
    ghost predicate Valid()
      reads this, activity
    {
      activity.recreations > 0 ==> activity.privateBrowsingExtra == Some(currentTheme == Private)
    }

    constructor (currentTheme: BrowsingMode, activity: Activity)
      requires activity.recreations == 0
      ensures Valid()
      ensures this.currentTheme == currentTheme && this.activity == activity
    {
      this.currentTheme := currentTheme;
      this.activity := activity;
    }

    /**
     * The `currentTheme` setter: the same mode, an external-app activity or
     * a finishing activity change nothing; otherwise the mode is stored,
     * written to the intent, and the activity is recreated.
     */
    method SetCurrentTheme(value: BrowsingMode)
      requires Valid()
      modifies this`currentTheme, activity`privateBrowsingExtra, activity`recreations
      ensures Valid()
      ensures value == old(currentTheme) || activity.isExternalAppBrowser || activity.isFinishing ==>
        currentTheme == old(currentTheme) && activity.privateBrowsingExtra == old(activity.privateBrowsingExtra) &&
        activity.recreations == old(activity.recreations)
      ensures !(value == old(currentTheme) || activity.isExternalAppBrowser || activity.isFinishing) ==>
        currentTheme == value && activity.privateBrowsingExtra == Some(value == Private) &&
        activity.recreations == old(activity.recreations) + 1
    {
      if currentTheme != value {
        if activity.isExternalAppBrowser {
          return;
        }
        if activity.isFinishing {
          return;
        }
        currentTheme := value;
        activity.privateBrowsingExtra := Some(value == Private);
        activity.recreations := activity.recreations + 1;
      }
    }
  }
}
