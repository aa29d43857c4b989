/**
 * `HomeNativeAdViewHolder`: the home-screen native ad slot with its daily
 * show cap. The ad library, the remote ad configuration and the clock are
 * inputs; the ad settings singleton is a class with its two fields.
 */
module HomeNativeAd {
  import opened Optional

  /** `DateUtils.DAY_IN_MILLIS`. */
  const DAY_IN_MILLIS: int := 86_400_000

  datatype AdPlacement = AdPlacementHomeNative | OtherPlacement(name: string)

  /** An `AdConfig` with its `showCondition.dailyShowCount`. */
  datatype AdConfig = AdConfig(placement: AdPlacement, dailyShowCount: int)

  /** A loaded native ad, known only by identity here. */
  datatype NativeAd = NativeAd(id: int)

  /** The item view's layout height. */
  datatype ItemHeight = InitialHeight | Collapsed | WrapContent

  /** `MaxAdSettings`, the persisted daily counter of home native ads. */
  class MaxAdSettings {
    var homeNativeAdFirstTimeOfDailyShowing: int
    var homeNativeAdDailyShowCount: int

    constructor (firstTime: int, count: int)
      ensures homeNativeAdFirstTimeOfDailyShowing == firstTime && homeNativeAdDailyShowCount == count
    {
      homeNativeAdFirstTimeOfDailyShowing := firstTime;
      homeNativeAdDailyShowCount := count;
    }
  }

  /** `getAdConfigs().find { it.placement == AD_PLACEMENT_HOME_NATIVE }`. */
  function FindHomeNativeConfig(configs: seq<AdConfig>): (r: Option<AdConfig>)
    ensures r.None? <==> forall i :: 0 <= i < |configs| ==> configs[i].placement != AdPlacementHomeNative
    ensures r.Some? ==> r.value in configs && r.value.placement == AdPlacementHomeNative
  {
    if configs == [] then None
    else if configs[0].placement == AdPlacementHomeNative then Some(configs[0])
    else
      assert forall i :: 1 <= i < |configs| ==> configs[i] == configs[1..][i - 1];
      FindHomeNativeConfig(configs[1..])
  }

  /** `find` returns the first configuration for the home-native placement. */
  lemma {:induction false} FindHomeNativeConfigIsFirst(configs: seq<AdConfig>, k: nat)
    requires k < |configs| && configs[k].placement == AdPlacementHomeNative
    requires forall j :: 0 <= j < k ==> configs[j].placement != AdPlacementHomeNative
    ensures FindHomeNativeConfig(configs) == Some(configs[k])
  {
    if k > 0 {
      FindHomeNativeConfigIsFirst(configs[1..], k - 1);
    }
  }

  /** The stored daily count after the reset rule of `checkOverDailyShowCount`. */
  function DailyCount(firstTime: int, count: int, now: int): int {
    if now - firstTime >= DAY_IN_MILLIS then 0 else count
  }

  /**
   * The view holder. `adRequests` counts the requests handed to
   * `interactor.onGetHomeNativeAd` and `arrivals` the ads its callback
   * delivered.
   */
  class HomeNativeAdViewHolder {
    const settings: MaxAdSettings
    var nativeAd: Option<NativeAd>
    var isAdLoading: bool
    var itemHeight: ItemHeight
    var adRequests: nat
    var arrivals: nat

    /**
     * Every request is either answered or still loading, and an ad is held
     * once one has arrived.
     */
    ghost predicate Valid()
      reads this
    {
      && adRequests == arrivals + (if isAdLoading then 1 else 0)
      && (nativeAd.Some? <==> arrivals > 0)
    }

    constructor (settings: MaxAdSettings)
      ensures Valid()
      ensures this.settings == settings
      ensures nativeAd.None? && !isAdLoading && itemHeight == InitialHeight
      ensures adRequests == 0 && arrivals == 0
    {
      this.settings := settings;
      nativeAd := None;
      isAdLoading := false;
      itemHeight := InitialHeight;
      adRequests := 0;
      arrivals := 0;
    }

    /** There is never more than one request waiting for an ad. */
    lemma AtMostOneRequestInFlight()
      requires Valid()
      ensures adRequests - arrivals <= 1
      ensures adRequests - arrivals == 1 <==> isAdLoading
    {
    }

    /**
     * `checkOverDailyShowCount` at time `now`: resets the stored count when a
     * day or more has passed since the first showing, then reports whether
     * the count has reached the configured daily limit.
     */
    method CheckOverDailyShowCount(config: AdConfig, now: int) returns (over: bool)
      modifies settings`homeNativeAdDailyShowCount
      ensures settings.homeNativeAdDailyShowCount ==
        DailyCount(settings.homeNativeAdFirstTimeOfDailyShowing, old(settings.homeNativeAdDailyShowCount), now)
      ensures over <==> settings.homeNativeAdDailyShowCount >= config.dailyShowCount
    {
      var time := now;
      var firstTime := settings.homeNativeAdFirstTimeOfDailyShowing;
      var duration := time - firstTime;
      if duration >= DAY_IN_MILLIS {
        settings.homeNativeAdDailyShowCount := 0;
      }
      var dailyShowCount := settings.homeNativeAdDailyShowCount;
      over := dailyShowCount >= config.dailyShowCount;
    }

    /** `collapseItemView`: the item takes no space. */
    method CollapseItemView()
      modifies this`itemHeight
      ensures itemHeight == Collapsed
    {
      itemHeight := Collapsed;
    }

    /** `loadAd`: one request at a time; the flag is set before requesting. */
    method LoadAd()
      requires Valid()
      modifies this`isAdLoading, this`adRequests
      ensures Valid()
      ensures isAdLoading
      ensures adRequests == old(adRequests) + (if old(isAdLoading) then 0 else 1)
    {
      if isAdLoading {
        return;
      }
      isAdLoading := true;
      adRequests := adRequests + 1;
    }

    /**
     * The `getNativeAdCallback` for a pending request at time `now`: holds
     * the ad, clears the loading flag, shows the item, and counts the
     * showing, starting a new day window when the count was 0.
     */
    method OnNativeAdLoaded(ad: NativeAd, now: int)
      requires Valid() && isAdLoading
      modifies this`nativeAd, this`isAdLoading, this`itemHeight, this`arrivals,
               settings`homeNativeAdFirstTimeOfDailyShowing, settings`homeNativeAdDailyShowCount
      ensures Valid()
      ensures nativeAd == Some(ad) && !isAdLoading && itemHeight == WrapContent
      ensures settings.homeNativeAdDailyShowCount == old(settings.homeNativeAdDailyShowCount) + 1
      ensures settings.homeNativeAdFirstTimeOfDailyShowing ==
        if old(settings.homeNativeAdDailyShowCount) == 0 then now
        else old(settings.homeNativeAdFirstTimeOfDailyShowing)
    {
      nativeAd := Some(ad);
      isAdLoading := false;
      itemHeight := WrapContent;
      arrivals := arrivals + 1;
      var showCount := settings.homeNativeAdDailyShowCount;
      if showCount == 0 {
        settings.homeNativeAdFirstTimeOfDailyShowing := now;
      }
      settings.homeNativeAdDailyShowCount := showCount + 1;
    }

    /**
     * `bind` at time `now`: without a home-native configuration, or with an
     * ad already held, nothing happens; otherwise the item collapses when
     * the daily count (after its reset) has reached the limit, and an ad is
     * requested when it has not.
     */
    method Bind(configs: seq<AdConfig>, now: int)
      requires Valid()
      modifies this`isAdLoading, this`adRequests, this`itemHeight, settings`homeNativeAdDailyShowCount
      ensures Valid()
      ensures FindHomeNativeConfig(configs).None? || old(nativeAd).Some? ==>
        isAdLoading == old(isAdLoading) && adRequests == old(adRequests) &&
        itemHeight == old(itemHeight) &&
        settings.homeNativeAdDailyShowCount == old(settings.homeNativeAdDailyShowCount)
      ensures FindHomeNativeConfig(configs).Some? && old(nativeAd).None? ==>
        var count := DailyCount(settings.homeNativeAdFirstTimeOfDailyShowing,
                                old(settings.homeNativeAdDailyShowCount), now);
        settings.homeNativeAdDailyShowCount == count &&
        (count >= FindHomeNativeConfig(configs).value.dailyShowCount ==>
          itemHeight == Collapsed && adRequests == old(adRequests) && isAdLoading == old(isAdLoading)) &&
        (count < FindHomeNativeConfig(configs).value.dailyShowCount ==>
          itemHeight == old(itemHeight) && isAdLoading &&
          adRequests == old(adRequests) + (if old(isAdLoading) then 0 else 1))
    {
      var adConfig := FindHomeNativeConfig(configs);
      if adConfig.None? {
        return;
      }
      if nativeAd.Some? {
        return;
      }
      var isOverDailyShowCount := CheckOverDailyShowCount(adConfig.value, now);
      if isOverDailyShowCount {
        CollapseItemView();
      } else {
        LoadAd();
      }
    }
  }
}
