/**
 * The intent processors behind the QR-code scanner and VPN deep links:
 * two resolve a Firebase dynamic link and mark the intent for the scanner,
 * two route a marked intent to the scanner or VPN activity, and the
 * home-screen shortcut only reports its use.
 */
module IntentProcessors {
  import opened Optional

  /** The boolean extras the processors read or write; other keys are kept apart. */
  datatype ExtraKey = OpenToQrcodeScanner | OpenToVpn | OtherKey(name: string)

  /** `ComponentName(packageName, className)`. */
  datatype ComponentName = ComponentName(packageName: string, className: string)

  const QRCODE_ACTIVITY: string := "com.max.browser.core.feature.qrcode.QrcodeActivity"
  const VPN_ACTIVITY: string := "com.max.browser.core.feature.vpn.VpnActivity"

  /** The links both dynamic-link processors accept (`QRCODE_SCANNER_LINKS`). */
  const QRCODE_SCANNER_LINKS: seq<string> :=
    ["https://www.maxbrowser.co/qrcode-scanner", "https://maxbrowser.co/qrcode-scanner"]

  const ACTION_OPEN_QRCODE_SCANNER: string := "com.max.browser.core.OPEN_QRCODE_SCANNER"

  /** An intent: its action, its extras bundle (`None` when there is none) and its component. */
  class Intent {
    var action: Option<string>
    var extras: Option<map<ExtraKey, bool>>
    var component: Option<ComponentName>

    constructor (action: Option<string>, extras: Option<map<ExtraKey, bool>>)
      ensures this.action == action && this.extras == extras && component.None?
    {
      this.action := action;
      this.extras := extras;
      component := None;
    }
  }

  /** `extras?.getBoolean(key) == true`: a missing bundle or key reads as false. */
  function GetBoolean(extras: Option<map<ExtraKey, bool>>, key: ExtraKey): bool {
    extras.Some? && key in extras.value && extras.value[key]
  }

  function ExtrasOf(extras: Option<map<ExtraKey, bool>>): map<ExtraKey, bool> {
    if extras.Some? then extras.value else map[]
  }

  /** `putExtra`: creates the bundle if needed, sets `key`, and keeps every other extra. */
  function PutExtra(extras: Option<map<ExtraKey, bool>>, key: ExtraKey, value: bool): (r: Option<map<ExtraKey, bool>>)
    ensures r.Some? && GetBoolean(r, key) == value
    ensures r.value.Keys == ExtrasOf(extras).Keys + {key}
    ensures forall k :: k in ExtrasOf(extras) && k != key ==> r.value[k] == ExtrasOf(extras)[k]
  {
    Some(ExtrasOf(extras)[key := value])
  }

  /** The activity that starts the routed intents. */
  class HomeActivity {
    const packageName: string
    /** The component of every intent started, in order. */
    var started: seq<ComponentName>

    constructor (packageName: string)
      ensures this.packageName == packageName && started == []
    {
      this.packageName := packageName;
      started := [];
    }
  }

  // ---------------------------------------------------------------------
  // Routing a marked intent
  // ---------------------------------------------------------------------

  /**
   * Where `OpenDynamicLinkIntentProcessor` sends an intent: the scanner when
   * its scanner flag is set, whatever the VPN flag says; otherwise the VPN
   * activity when the VPN flag is set; otherwise nowhere.
   */
  function DynamicLinkTarget(extras: Option<map<ExtraKey, bool>>): (r: Option<string>)
    ensures r == Some(QRCODE_ACTIVITY) <==> GetBoolean(extras, OpenToQrcodeScanner)
    ensures r == Some(VPN_ACTIVITY) <==> !GetBoolean(extras, OpenToQrcodeScanner) && GetBoolean(extras, OpenToVpn)
    ensures r.None? <==> !GetBoolean(extras, OpenToQrcodeScanner) && !GetBoolean(extras, OpenToVpn)
  {
    if GetBoolean(extras, OpenToQrcodeScanner) then Some(QRCODE_ACTIVITY)
    else if GetBoolean(extras, OpenToVpn) then Some(VPN_ACTIVITY)
    else None
  }

  class OpenDynamicLinkIntentProcessor {
    const activity: HomeActivity

    constructor (activity: HomeActivity)
      ensures this.activity == activity
    {
      this.activity := activity;
    }

    /**
     * `process`: a routed intent gets the target's component and is
     * started, and the result is true; otherwise nothing changes and the
     * result is false. The extras are only read.
     */
    method Process(intent: Intent) returns (handled: bool)
      modifies intent`component, activity`started
      ensures var target := DynamicLinkTarget(intent.extras);
        && handled == target.Some?
        && (handled ==> intent.component == Some(ComponentName(activity.packageName, target.value)) &&
                        activity.started == old(activity.started) + [intent.component.value])
        && (!handled ==> intent.component == old(intent.component) && activity.started == old(activity.started))
    {
      if GetBoolean(intent.extras, OpenToQrcodeScanner) {
        intent.component := Some(ComponentName(activity.packageName, QRCODE_ACTIVITY));
        activity.started := activity.started + [intent.component.value];
        handled := true;
      } else if GetBoolean(intent.extras, OpenToVpn) {
        intent.component := Some(ComponentName(activity.packageName, VPN_ACTIVITY));
        activity.started := activity.started + [intent.component.value];
        handled := true;
      } else {
        handled := false;
      }
    }
  }

  class OpenQrcodeScannerIntentProcessor {
    const activity: HomeActivity

    constructor (activity: HomeActivity)
      ensures this.activity == activity
    {
      this.activity := activity;
    }

    /**
     * `process`: true iff the scanner flag is set, and then the intent is
     * pointed at the scanner and started once; otherwise nothing changes.
     */
    method Process(intent: Intent) returns (handled: bool)
      modifies intent`component, activity`started
      ensures handled == GetBoolean(intent.extras, OpenToQrcodeScanner)
      ensures handled ==> intent.component == Some(ComponentName(activity.packageName, QRCODE_ACTIVITY)) &&
                          activity.started == old(activity.started) + [intent.component.value]
      ensures !handled ==> intent.component == old(intent.component) && activity.started == old(activity.started)
    {
      if GetBoolean(intent.extras, OpenToQrcodeScanner) {
        intent.component := Some(ComponentName(activity.packageName, QRCODE_ACTIVITY));
        activity.started := activity.started + [intent.component.value];
        handled := true;
      } else {
        handled := false;
      }
    }
  }

  /** The scanner processor handles exactly the intents the dynamic-link router sends to the scanner. */
  lemma ScannerProcessorsAgree(extras: Option<map<ExtraKey, bool>>)
    ensures GetBoolean(extras, OpenToQrcodeScanner) <==> DynamicLinkTarget(extras) == Some(QRCODE_ACTIVITY)
  {
  }

  // ---------------------------------------------------------------------
  // Resolving a dynamic link
  // ---------------------------------------------------------------------

  /** What `getDynamicLink(intent).result.link` gives: a link or none, or an exception. */
  datatype DynamicLinkResult = Threw | Resolved(link: Option<string>)

  /** One of the two scanner links, compared as whole strings. */
  function IsQrcodeScannerLink(link: string): (r: bool)
    ensures r <==> link == "https://www.maxbrowser.co/qrcode-scanner" || link == "https://maxbrowser.co/qrcode-scanner"
  {
    link in QRCODE_SCANNER_LINKS
  }

  /** Whether a resolution yields a scanner link. */
  predicate ResolvesToScanner(res: DynamicLinkResult) {
    res.Resolved? && res.link.Some? && IsQrcodeScannerLink(res.link.value)
  }

  /** The effect of a link processor: its result and the scanner extra it writes, if any. */
  datatype LinkOutcome = LinkOutcome(handled: bool, scannerExtra: Option<bool>)

  /**
   * `QrcodeIntentProcessor.process`: any resolved link writes the scanner
   * extra with the match result, even false; the result is the match; no
   * link or an exception gives false and writes nothing.
   */
  function QrcodeLinkOutcome(res: DynamicLinkResult): (r: LinkOutcome)
    ensures r.handled <==> ResolvesToScanner(res)
    ensures r.scannerExtra.Some? <==> res.Resolved? && res.link.Some?
    ensures r.scannerExtra.Some? ==> r.scannerExtra.value == r.handled
  {
    match res
    case Threw => LinkOutcome(false, None)
    case Resolved(link) =>
      if link.None? then LinkOutcome(false, None)
      else LinkOutcome(IsQrcodeScannerLink(link.value), Some(IsQrcodeScannerLink(link.value)))
  }

  /**
   * `DynamicLinkIntentProcessor.process`: only a scanner link writes the
   * scanner extra, as true, and gives true; everything else gives false and
   * writes nothing.
   */
  function DynamicLinkOutcome(res: DynamicLinkResult): (r: LinkOutcome)
    ensures r.handled <==> ResolvesToScanner(res)
    ensures r.scannerExtra == (if r.handled then Some(true) else None)
  {
    if res.Threw? || res.link.None? then LinkOutcome(false, None)
    else if IsQrcodeScannerLink(res.link.value) then LinkOutcome(true, Some(true))
    else LinkOutcome(false, None)
  }

  /** The extras after a link processor's outcome. */
  function ApplyOutcome(extras: Option<map<ExtraKey, bool>>, o: LinkOutcome): Option<map<ExtraKey, bool>> {
    if o.scannerExtra.Some? then PutExtra(extras, OpenToQrcodeScanner, o.scannerExtra.value) else extras
  }

  /**
   * The two link processors accept the same links and write the same extra
   * for them; they differ only on a resolved non-scanner link, where
   * `QrcodeIntentProcessor` writes false and the other writes nothing.
   */
  lemma LinkProcessorsAgree(res: DynamicLinkResult)
    ensures QrcodeLinkOutcome(res).handled == DynamicLinkOutcome(res).handled
    ensures QrcodeLinkOutcome(res).handled ==> QrcodeLinkOutcome(res) == DynamicLinkOutcome(res)
    ensures QrcodeLinkOutcome(res) != DynamicLinkOutcome(res) <==>
      res.Resolved? && res.link.Some? && !IsQrcodeScannerLink(res.link.value)
  {
  }

  /**
   * A link either processor accepts leaves the intent marked so that the
   * dynamic-link router sends it to the scanner, whatever its VPN flag; a
   * rejected link leaves the scanner flag as it was, except that
   * `QrcodeIntentProcessor` clears it for a resolved non-scanner link.
   */
  lemma AcceptedLinkRoutesToScanner(extras: Option<map<ExtraKey, bool>>, res: DynamicLinkResult)
    ensures ResolvesToScanner(res) ==>
      DynamicLinkTarget(ApplyOutcome(extras, QrcodeLinkOutcome(res))) == Some(QRCODE_ACTIVITY) &&
      DynamicLinkTarget(ApplyOutcome(extras, DynamicLinkOutcome(res))) == Some(QRCODE_ACTIVITY)
    ensures !ResolvesToScanner(res) ==>
      ApplyOutcome(extras, DynamicLinkOutcome(res)) == extras &&
      GetBoolean(ApplyOutcome(extras, QrcodeLinkOutcome(res)), OpenToQrcodeScanner) ==
        (GetBoolean(extras, OpenToQrcodeScanner) && !(res.Resolved? && res.link.Some?))
  {
  }

  class QrcodeIntentProcessor {
    constructor () {}

    /** `process`: the intent's extras and the result follow `QrcodeLinkOutcome`. */
    method Process(intent: Intent, res: DynamicLinkResult) returns (handled: bool)
      modifies intent`extras
      ensures handled == QrcodeLinkOutcome(res).handled
      ensures intent.extras == ApplyOutcome(old(intent.extras), QrcodeLinkOutcome(res))
    {
      if res.Resolved? && res.link.Some? {
        var isQrcodeScannerLink := IsQrcodeScannerLink(res.link.value);
        intent.extras := PutExtra(intent.extras, OpenToQrcodeScanner, isQrcodeScannerLink);
        return isQrcodeScannerLink;
      }
      return false;
    }
  }

  class DynamicLinkIntentProcessor {
    constructor () {}

    /** `process`: the intent's extras and the result follow `DynamicLinkOutcome`. */
    method Process(intent: Intent, res: DynamicLinkResult) returns (handled: bool)
      modifies intent`extras
      ensures handled == DynamicLinkOutcome(res).handled
      ensures intent.extras == ApplyOutcome(old(intent.extras), DynamicLinkOutcome(res))
    {
      if res.Resolved? && res.link.Some? && IsQrcodeScannerLink(res.link.value) {
        intent.extras := PutExtra(intent.extras, OpenToQrcodeScanner, true);
        return true;
      }
      return false;
    }
  }

  // ---------------------------------------------------------------------
  // The QR-code shortcut
  // ---------------------------------------------------------------------

  /** A reported analytics event with its string parameters. */
  datatype Report = Report(event: string, params: map<string, string>)

  /** The analytics sink; the reports are kept in order. */
  class ReportManager {
    var reports: seq<Report>

    constructor ()
      ensures reports == []
    {
      reports := [];
    }
  }

  /** The reports the shortcut processor makes for an intent action. */
  function ShortcutReports(action: Option<string>): (r: seq<Report>)
    ensures |r| <= 1
    ensures r != [] <==> action == Some(ACTION_OPEN_QRCODE_SCANNER)
    ensures forall i :: 0 <= i < |r| ==> r[i].event == "quick_menu_click" && r[i].params == map["type" := "qr_scan"]
  {
    if action == Some(ACTION_OPEN_QRCODE_SCANNER) then [Report("quick_menu_click", map["type" := "qr_scan"])]
    else []
  }

  class QrcodeShortcutIntentProcessor {
    constructor () {}

    /**
     * `process`: reports a scanner shortcut click and never claims the
     * intent; the intent itself is not touched.
     */
    method Process(intent: Intent, reportManager: ReportManager) returns (handled: bool)
      modifies reportManager
      ensures !handled
      ensures reportManager.reports == old(reportManager.reports) + ShortcutReports(intent.action)
    {
      if intent.action == Some(ACTION_OPEN_QRCODE_SCANNER) {
        reportManager.reports := reportManager.reports + [Report("quick_menu_click", map["type" := "qr_scan"])];
      } else {
        return false;
      }
      return false;
    }
  }
}
