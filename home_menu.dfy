/**
 * `HomeMenu`: the items of the home screen's overflow menu and the reports
 * of the menu to its host. The account manager, the release channel and the
 * settings are inputs.
 */
module HomeMenu {
  import opened Optional
  import opened SeqUtil

  /** The entries `coreMenuItems` can produce. */
  datatype MenuEntry = BookmarksItem | HistoryItem | DownloadsItem | ExtensionsItem
                     | ReconnectToSyncItem | ManageAccountAndDevicesItem | Divider | DesktopItem
                     | CustomizeHomeItem | SetDefaultBrowserItem | SettingsItem | QuitItem

  /** What `coreMenuItems` reads besides the fixed items. */
  datatype MenuConfig = MenuConfig(
    accountManagerReady: bool,
    accountNeedsReauth: bool,
    isMozillaOnline: bool,
    isDefaultBrowserBlocking: bool,
    shouldDeleteBrowsingDataOnQuit: bool)

  /** An optional entry of `listOfNotNull`: the entry when present, nothing otherwise. */
  function Opt(present: bool, e: MenuEntry): (r: seq<MenuEntry>)
    ensures present ==> r == [e]
    ensures !present ==> r == []
  {
    if present then [e] else []
  }

  /**
   * `coreMenuItems`: the `listOfNotNull` of the fixed items with the
   * optional ones between them; an absent optional item leaves no gap.
   */
  function CoreMenuItems(cfg: MenuConfig): seq<MenuEntry> {
    [BookmarksItem, HistoryItem, DownloadsItem, ExtensionsItem] +
    Opt(cfg.accountManagerReady && cfg.accountNeedsReauth, ReconnectToSyncItem) +
    Opt(cfg.isMozillaOnline, ManageAccountAndDevicesItem) +
    [Divider, DesktopItem, Divider, CustomizeHomeItem] +
    Opt(!cfg.isDefaultBrowserBlocking, SetDefaultBrowserItem) +
    [SettingsItem] +
    Opt(cfg.shouldDeleteBrowsingDataOnQuit, QuitItem)
  }

  /** Where the block after the account items starts: 4 plus the account items present. */
  function DividerStart(cfg: MenuConfig): nat {
    4 + |Opt(cfg.accountManagerReady && cfg.accountNeedsReauth, ReconnectToSyncItem)| +
    |Opt(cfg.isMozillaOnline, ManageAccountAndDevicesItem)|
  }

  /** Where Settings sits: after that block and the set-default item, when present. */
  function SettingsIndex(cfg: MenuConfig): nat {
    DividerStart(cfg) + 4 + |Opt(!cfg.isDefaultBrowserBlocking, SetDefaultBrowserItem)|
  }

  /**
   * The fixed entries keep their order: Bookmarks, History, Downloads and
   * Extensions open the menu; a divider, Desktop, a divider and Customize
   * home follow the account items; Settings follows the set-default item,
   * and only the quit item can come after it.
   */
  lemma FixedEntriesInOrder(cfg: MenuConfig)
    ensures 9 <= |CoreMenuItems(cfg)| <= 13
    ensures |CoreMenuItems(cfg)| == SettingsIndex(cfg) + 1 + (if cfg.shouldDeleteBrowsingDataOnQuit then 1 else 0)
    ensures CoreMenuItems(cfg)[..4] == [BookmarksItem, HistoryItem, DownloadsItem, ExtensionsItem]
    ensures CoreMenuItems(cfg)[DividerStart(cfg)..DividerStart(cfg) + 4] ==
      [Divider, DesktopItem, Divider, CustomizeHomeItem]
    ensures CoreMenuItems(cfg)[SettingsIndex(cfg)] == SettingsItem
  {
    var items := CoreMenuItems(cfg);
    var b1 := [BookmarksItem, HistoryItem, DownloadsItem, ExtensionsItem];
    var b4 := [Divider, DesktopItem, Divider, CustomizeHomeItem];
    var front := b1 + Opt(cfg.accountManagerReady && cfg.accountNeedsReauth, ReconnectToSyncItem) +
      Opt(cfg.isMozillaOnline, ManageAccountAndDevicesItem);
    var mid := front + b4 + Opt(!cfg.isDefaultBrowserBlocking, SetDefaultBrowserItem);
    var tail := Opt(cfg.shouldDeleteBrowsingDataOnQuit, QuitItem);
    assert items == mid + [SettingsItem] + tail;
    assert |front| == DividerStart(cfg) && |mid| == SettingsIndex(cfg);
    assert items[..4] == front[..4] == b1;
    assert items[..|front| + 4] == front + b4;
    assert items[|front|..|front| + 4] == (front + b4)[|front|..];
    assert (front + b4)[|front|..] == b4;
    assert items[|mid|] == SettingsItem;
  }

  /**
   * The two dividers around Desktop are the menu's only dividers, whatever
   * optional items are present.
   */
  lemma TwoDividers(cfg: MenuConfig)
    ensures multiset(CoreMenuItems(cfg))[Divider] == 2
  {
    var o1 := Opt(cfg.accountManagerReady && cfg.accountNeedsReauth, ReconnectToSyncItem);
    var o2 := Opt(cfg.isMozillaOnline, ManageAccountAndDevicesItem);
    var o3 := Opt(!cfg.isDefaultBrowserBlocking, SetDefaultBrowserItem);
    var o4 := Opt(cfg.shouldDeleteBrowsingDataOnQuit, QuitItem);
    DividersOfParts(o1, o2, o3, o4);
  }

  /** The dividers of the menu's layout when no optional item is a divider. */
  lemma DividersOfParts(o1: seq<MenuEntry>, o2: seq<MenuEntry>, o3: seq<MenuEntry>, o4: seq<MenuEntry>)
    requires Divider !in o1 && Divider !in o2 && Divider !in o3 && Divider !in o4
    ensures multiset([BookmarksItem, HistoryItem, DownloadsItem, ExtensionsItem] + o1 + o2 +
      [Divider, DesktopItem, Divider, CustomizeHomeItem] + o3 + [SettingsItem] + o4)[Divider] == 2
  {
    assert multiset(o1)[Divider] == 0 && multiset(o2)[Divider] == 0;
    assert multiset(o3)[Divider] == 0 && multiset(o4)[Divider] == 0;
  }

  /**
   * The reconnect item is there iff the account manager is ready and needs
   * reauthentication, and then it comes right after Extensions.
   */
  lemma ReconnectItemPlacement(cfg: MenuConfig)
    ensures ReconnectToSyncItem in CoreMenuItems(cfg) <==> cfg.accountManagerReady && cfg.accountNeedsReauth
    ensures cfg.accountManagerReady && cfg.accountNeedsReauth ==>
      CoreMenuItems(cfg)[3] == ExtensionsItem && CoreMenuItems(cfg)[4] == ReconnectToSyncItem
  {
    var items := CoreMenuItems(cfg);
    var rest := Opt(cfg.isMozillaOnline, ManageAccountAndDevicesItem) +
      [Divider, DesktopItem, Divider, CustomizeHomeItem] +
      Opt(!cfg.isDefaultBrowserBlocking, SetDefaultBrowserItem) + [SettingsItem] +
      Opt(cfg.shouldDeleteBrowsingDataOnQuit, QuitItem);
    assert items == [BookmarksItem, HistoryItem, DownloadsItem, ExtensionsItem] +
      Opt(cfg.accountManagerReady && cfg.accountNeedsReauth, ReconnectToSyncItem) + rest;
    assert ReconnectToSyncItem !in rest;
  }

  /** The manage-account item is there iff the channel is Mozilla Online. */
  lemma ManageAccountItemPresence(cfg: MenuConfig)
    ensures ManageAccountAndDevicesItem in CoreMenuItems(cfg) <==> cfg.isMozillaOnline
  {
    var items := CoreMenuItems(cfg);
    var front := [BookmarksItem, HistoryItem, DownloadsItem, ExtensionsItem] +
      Opt(cfg.accountManagerReady && cfg.accountNeedsReauth, ReconnectToSyncItem);
    var rest := [Divider, DesktopItem, Divider, CustomizeHomeItem] +
      Opt(!cfg.isDefaultBrowserBlocking, SetDefaultBrowserItem) + [SettingsItem] +
      Opt(cfg.shouldDeleteBrowsingDataOnQuit, QuitItem);
    assert items == front + Opt(cfg.isMozillaOnline, ManageAccountAndDevicesItem) + rest;
    assert ManageAccountAndDevicesItem !in front && ManageAccountAndDevicesItem !in rest;
  }

  /** The set-default-browser item is missing iff the default browser is blocking. */
  lemma SetDefaultBrowserItemPresence(cfg: MenuConfig)
    ensures SetDefaultBrowserItem !in CoreMenuItems(cfg) <==> cfg.isDefaultBrowserBlocking
  {
    var items := CoreMenuItems(cfg);
    var front := [BookmarksItem, HistoryItem, DownloadsItem, ExtensionsItem] +
      Opt(cfg.accountManagerReady && cfg.accountNeedsReauth, ReconnectToSyncItem) +
      Opt(cfg.isMozillaOnline, ManageAccountAndDevicesItem) +
      [Divider, DesktopItem, Divider, CustomizeHomeItem];
    var rest := [SettingsItem] + Opt(cfg.shouldDeleteBrowsingDataOnQuit, QuitItem);
    assert items == front + Opt(!cfg.isDefaultBrowserBlocking, SetDefaultBrowserItem) + rest;
    assert SetDefaultBrowserItem !in front && SetDefaultBrowserItem !in rest;
  }

  /** The quit item is there iff browsing data is deleted on quit, and then it is last. */
  lemma QuitItemPlacement(cfg: MenuConfig)
    ensures QuitItem in CoreMenuItems(cfg) <==> cfg.shouldDeleteBrowsingDataOnQuit
    ensures cfg.shouldDeleteBrowsingDataOnQuit ==> CoreMenuItems(cfg)[|CoreMenuItems(cfg)| - 1] == QuitItem
  {
    var items := CoreMenuItems(cfg);
    var front := [BookmarksItem, HistoryItem, DownloadsItem, ExtensionsItem] +
      Opt(cfg.accountManagerReady && cfg.accountNeedsReauth, ReconnectToSyncItem) +
      Opt(cfg.isMozillaOnline, ManageAccountAndDevicesItem) +
      [Divider, DesktopItem, Divider, CustomizeHomeItem] +
      Opt(!cfg.isDefaultBrowserBlocking, SetDefaultBrowserItem) + [SettingsItem];
    assert items == front + Opt(cfg.shouldDeleteBrowsingDataOnQuit, QuitItem);
    assert QuitItem !in front;
  }

  // ---------------------------------------------------------------------
  // The menu object
  // ---------------------------------------------------------------------

  /** Account events the registered observer reacts to. */
  datatype AccountEvent = AuthenticationProblems | Authenticated | LoggedOut

  class HomeMenu {
    /** The items built once, at construction. */
    const menuItems: seq<MenuEntry>
    /** Every list handed to `onMenuBuilderChanged`, in order. */
    var reports: seq<seq<MenuEntry>>
    /** Whether `onHighlightPresent` was called. */
    var highlightReported: bool
    var observerRegistered: bool

    /** Every report is the menu built at construction, and there is at least one. */
    ghost predicate Valid()
      reads this
    {
      |reports| >= 1 && forall i :: 0 <= i < |reports| ==> reports[i] == menuItems
    }

    /**
     * `init`: builds the items, reports them once, and tells the host about
     * the highlight, which only the reconnect item has.
     */
    constructor (cfg: MenuConfig)
      ensures Valid()
      ensures menuItems == CoreMenuItems(cfg) && reports == [menuItems]
      ensures highlightReported <==> ReconnectToSyncItem in menuItems
      ensures !observerRegistered
    {
      var items := CoreMenuItems(cfg);
      menuItems := items;
      highlightReported := ReconnectToSyncItem in items;
      reports := [items];
      observerRegistered := false;
    }

    /** The queued task once the account manager is ready: register unless the owner is destroyed. */
    method OnAccountManagerReady(lifecycleDestroyed: bool)
      requires Valid()
      modifies this`observerRegistered
      ensures Valid()
      ensures observerRegistered == (old(observerRegistered) || !lifecycleDestroyed)
    {
      if lifecycleDestroyed {
        return;
      }
      observerRegistered := true;
    }

    /** An account event reports the same items again, if the observer is registered. */
    method OnAccountEvent(event: AccountEvent)
      requires Valid()
      modifies this`reports
      ensures Valid()
      ensures reports == old(reports) + (if observerRegistered then [menuItems] else [])
    {
      if observerRegistered {
        reports := reports + [menuItems];
      }
    }

    /** The first report is the initial menu, and no later report differs from it. */
    lemma ReportsNeverChange()
      requires Valid()
      ensures reports[0] == menuItems
      ensures forall i, j :: 0 <= i < |reports| && 0 <= j < |reports| ==> reports[i] == reports[j]
    {
    }

    /**
     * Account events re-report the items built at `init`, so the reconnect
     * item never follows the account: every report lists it iff the account
     * manager was ready and needed reauthentication when the menu was built,
     * even after `onAuthenticationProblems`.
     */
    lemma ReconnectFixedAtInit(cfg: MenuConfig)
      requires Valid() && menuItems == CoreMenuItems(cfg)
      ensures forall i :: 0 <= i < |reports| ==>
        (ReconnectToSyncItem in reports[i] <==> cfg.accountManagerReady && cfg.accountNeedsReauth)
    {
      ReconnectItemPlacement(cfg);
    }
  }
}
