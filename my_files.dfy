/**
 * `MyFileFragment`: the "my files" page. `provideDownloads` turns the
 * browser's download map into the completed-downloads list whose size the
 * page shows; a one-shot flag sends the page on to the media list when it
 * was opened from a download notification.
 */
module MyFiles {
  import opened Optional
  import opened SeqUtil
  import BrowserFragment

  type Status = BrowserFragment.DownloadStatus

  /** The fields of a browser `DownloadState` the page reads. */
  datatype Download = Download(
    id: string,
    url: string,
    fileName: Option<string>,
    filePath: string,
    contentLength: Option<int>,
    contentType: Option<string>,
    status: Status,
    createdTime: int)

  /** `DownloadItem`, a row of the downloads library. */
  datatype DownloadItem = DownloadItem(
    id: string,
    url: string,
    fileName: Option<string>,
    filePath: string,
    size: string,
    contentType: Option<string>,
    status: Status)

  // ---------------------------------------------------------------------
  // Decimal text of a length (`Long.toString`)
  // ---------------------------------------------------------------------

  function DigitChar(d: nat): (c: char)
    requires d < 10
    ensures '0' <= c <= '9'
  {
    ('0' as int + d) as char
  }

  function DigitValue(c: char): int {
    c as int - '0' as int
  }

  /** The decimal digits of `n`, most significant first, without leading zeros. */
  function NatDigits(n: nat): (r: string)
    ensures 1 <= |r|
    ensures n >= 10 ==> |r| >= 2
    ensures forall i :: 0 <= i < |r| ==> '0' <= r[i] <= '9'
    decreases n
  {
    if n < 10 then [DigitChar(n)] else NatDigits(n / 10) + [DigitChar(n % 10)]
  }

  /** Reads a string of digits back as a number. */
  function DigitsValue(s: string): int {
    if s == [] then 0 else DigitsValue(s[..|s| - 1]) * 10 + DigitValue(s[|s| - 1])
  }

  /** The digits read back give the number. */
  lemma {:induction false} NatDigitsRoundTrip(n: nat)
    ensures DigitsValue(NatDigits(n)) == n
    decreases n
  {
    var r := NatDigits(n);
    if n < 10 {
      assert r[..|r| - 1] == [];
      assert DigitValue(r[0]) == n;
    } else {
      NatDigitsRoundTrip(n / 10);
      assert r[..|r| - 1] == NatDigits(n / 10);
      assert DigitValue(r[|r| - 1]) == n % 10;
      assert DigitsValue(r) == (n / 10) * 10 + n % 10;
    }
  }

  /** `Long.toString`: a minus sign for negatives, then the digits. */
  function DecimalString(n: int): (r: string)
    ensures 1 <= |r|
    ensures r == "0" <==> n == 0
    ensures n < 0 <==> r[0] == '-'
  {
    if n < 0 then "-" + NatDigits(-n) else NatDigits(n)
  }

  /** The text parses back to the length. */
  lemma DecimalStringRoundTrip(n: int)
    ensures n >= 0 ==> DigitsValue(DecimalString(n)) == n
    ensures n < 0 ==> DigitsValue(DecimalString(n)[1..]) == -n
  {
    if n >= 0 {
      NatDigitsRoundTrip(n);
    } else {
      NatDigitsRoundTrip(-n);
      assert DecimalString(n)[1..] == NatDigits(-n);
    }
  }

  // ---------------------------------------------------------------------
  // provideDownloads
  // ---------------------------------------------------------------------

  function FileNameOf(d: Download): Option<string> {
    d.fileName
  }

  /** `sortedByDescending { it.createdTime }` sorts by the negated time. */
  function NewestFirstKey(d: Download): int {
    -d.createdTime
  }

  /** The `map` step: every field is copied, the size is the length as text or "0". */
  function ToItem(d: Download): (item: DownloadItem)
    ensures item.id == d.id && item.url == d.url && item.fileName == d.fileName
    ensures item.filePath == d.filePath && item.contentType == d.contentType && item.status == d.status
    ensures d.contentLength.None? ==> item.size == "0"
    ensures d.contentLength.Some? ==> item.size == DecimalString(d.contentLength.value)
  {
    DownloadItem(d.id, d.url, d.fileName, d.filePath,
                 if d.contentLength.Some? then DecimalString(d.contentLength.value) else "0",
                 d.contentType, d.status)
  }

  predicate IsCompletedItem(item: DownloadItem) {
    item.status == BrowserFragment.Completed
  }

  /**
   * `provideDownloads`. `downloads` is the download map's values in their
   * order, `onDisk` the file-existence test of `filterNotExistsOnDisk`.
   */
  function ProvideDownloads(downloads: seq<Download>, onDisk: DownloadItem -> bool): seq<DownloadItem> {
    Filter(Filter(Map(SortBy(DistinctBy(downloads, FileNameOf), NewestFirstKey), ToItem), IsCompletedItem), onDisk)
  }

  /** The downloads whose items `provideDownloads` returns, in the same order. */
  function Selected(downloads: seq<Download>, onDisk: DownloadItem -> bool): seq<Download> {
    Filter(Filter(SortBy(DistinctBy(downloads, FileNameOf), NewestFirstKey), IsCompleted),
           d => onDisk(ToItem(d)))
  }

  predicate IsCompleted(d: Download) {
    d.status == BrowserFragment.Completed
  }

  /** `provideDownloads` returns the item of each selected download, in order. */
  lemma ProvideDownloadsItems(downloads: seq<Download>, onDisk: DownloadItem -> bool)
    ensures ProvideDownloads(downloads, onDisk) == Map(Selected(downloads, onDisk), ToItem)
  {
    var sorted := SortBy(DistinctBy(downloads, FileNameOf), NewestFirstKey);
    FilterMap(sorted, ToItem, IsCompletedItem, IsCompleted);
    FilterMap(Filter(sorted, IsCompleted), ToItem, onDisk, d => onDisk(ToItem(d)));
  }

  /**
   * The order `provideDownloads` promises: no more entries than downloads,
   * newest first, and no file name twice.
   */
  lemma SelectedOrder(downloads: seq<Download>, onDisk: DownloadItem -> bool)
    ensures var r := Selected(downloads, onDisk);
      && |r| <= |downloads|
      && (forall i, j :: 0 <= i < j < |r| ==> r[i].createdTime >= r[j].createdTime)
      && (forall i, j :: 0 <= i < j < |r| ==> r[i].fileName != r[j].fileName)
  {
    var deduped := DistinctBy(downloads, FileNameOf);
    var sorted := SortBy(deduped, NewestFirstKey);
    var completed := Filter(sorted, IsCompleted);
    DistinctByProps(downloads, FileNameOf);
    SortByPermutes(deduped, NewestFirstKey);
    SortBySorted(deduped, NewestFirstKey);
    SortByDistinct(deduped, NewestFirstKey, FileNameOf);
    FilterSorted(sorted, IsCompleted, NewestFirstKey);
    FilterSorted(completed, d => onDisk(ToItem(d)), NewestFirstKey);
    FilterDistinct(sorted, IsCompleted, FileNameOf);
    FilterDistinct(completed, d => onDisk(ToItem(d)), FileNameOf);
  }

  /**
   * The entries `provideDownloads` promises: each is completed and on disk,
   * and is the first download of its file name in map order.
   */
  lemma SelectedEntries(downloads: seq<Download>, onDisk: DownloadItem -> bool)
    ensures var r := Selected(downloads, onDisk);
      && (forall i :: 0 <= i < |r| ==> r[i].status == BrowserFragment.Completed && onDisk(ToItem(r[i])))
      && (forall i :: 0 <= i < |r| ==> FirstOf(downloads, FileNameOf, r[i].fileName) == Some(r[i]))
  {
    var deduped := DistinctBy(downloads, FileNameOf);
    var sorted := SortBy(deduped, NewestFirstKey);
    var completed := Filter(sorted, IsCompleted);
    var r := Selected(downloads, onDisk);
    DistinctByProps(downloads, FileNameOf);
    SortByMembers(deduped, NewestFirstKey);
    forall i | 0 <= i < |r|
      ensures r[i].status == BrowserFragment.Completed && onDisk(ToItem(r[i]))
      ensures FirstOf(downloads, FileNameOf, r[i].fileName) == Some(r[i])
    {
      assert r[i] in r;
      assert r[i] in completed;
      assert r[i] in deduped;
      var k :| 0 <= k < |deduped| && deduped[k] == r[i];
    }
  }

  /**
   * Deduplication comes before the status filter: a file name is listed
   * iff the first download with that name is completed and on disk.
   */
  lemma ListedIffFirstCompleted(downloads: seq<Download>, onDisk: DownloadItem -> bool, name: Option<string>)
    ensures (exists i :: 0 <= i < |Selected(downloads, onDisk)| && Selected(downloads, onDisk)[i].fileName == name) <==>
      (FirstOf(downloads, FileNameOf, name).Some? &&
       FirstOf(downloads, FileNameOf, name).value.status == BrowserFragment.Completed &&
       onDisk(ToItem(FirstOf(downloads, FileNameOf, name).value)))
  {
    var deduped := DistinctBy(downloads, FileNameOf);
    var sorted := SortBy(deduped, NewestFirstKey);
    var completed := Filter(sorted, IsCompleted);
    var r := Selected(downloads, onDisk);
    SelectedEntries(downloads, onDisk);
    var first := FirstOf(downloads, FileNameOf, name);
    if first.Some? && first.value.status == BrowserFragment.Completed && onDisk(ToItem(first.value)) {
      FirstOfFound(downloads, FileNameOf, name);
      DistinctByProps(downloads, FileNameOf);
      var j :| 0 <= j < |deduped| && FileNameOf(deduped[j]) == name;
      assert deduped[j] == first.value;
      SortByMembers(deduped, NewestFirstKey);
      FilterKeeps(sorted, IsCompleted, first.value);
      FilterKeeps(completed, d => onDisk(ToItem(d)), first.value);
      var i :| 0 <= i < |r| && r[i] == first.value;
      assert r[i].fileName == name;
    }
  }

  /** A found first element has the key it was looked up by and is in the list. */
  lemma {:induction false} FirstOfFound<T, K>(s: seq<T>, key: T -> K, k: K)
    requires FirstOf(s, key, k).Some?
    ensures key(FirstOf(s, key, k).value) == k && FirstOf(s, key, k).value in s
  {
    if key(s[0]) != k {
      FirstOfFound(s[1..], key, k);
    }
  }

  // ---------------------------------------------------------------------
  // The fragment
  // ---------------------------------------------------------------------

  /** Where the page navigated to. */
  datatype Destination = DownloadsPage | MediaPage

  class MyFileFragment {
    var haFromNotification: bool
    var navigations: seq<Destination>
    /** Jumps to the media page made because of the navigation argument. */
    var notificationJumps: nat
    var allFilesCount: int

    /** The jump from a notification has happened iff the flag is set. */
    ghost predicate Valid()
      reads this
    {
      notificationJumps == (if haFromNotification then 1 else 0)
    }

    constructor ()
      ensures Valid() && !haFromNotification && navigations == [] && notificationJumps == 0
    {
      haFromNotification := false;
      navigations := [];
      notificationJumps := 0;
      allFilesCount := 0;
    }

    /**
     * The navigation part of `onViewCreated`: with `argNav2MediaFilePage`
     * the page goes on to the media list, once per fragment.
     */
    method OnViewCreated(argNav2MediaFilePage: bool)
      requires Valid()
      modifies this`haFromNotification, this`navigations, this`notificationJumps
      ensures Valid()
      ensures notificationJumps <= 1
      ensures haFromNotification == (old(haFromNotification) || argNav2MediaFilePage)
      ensures navigations == old(navigations) +
        (if argNav2MediaFilePage && !old(haFromNotification) then [MediaPage] else [])
    {
      if argNav2MediaFilePage {
        if haFromNotification {
          return;
        }
        navigations := navigations + [MediaPage];
        notificationJumps := notificationJumps + 1;
        haFromNotification := true;
      }
    }

    /** The "all files" row: a click opens the downloads page. */
    method OnAllFilesClick()
      requires Valid()
      modifies this`navigations
      ensures Valid()
      ensures navigations == old(navigations) + [DownloadsPage]
    {
      navigations := navigations + [DownloadsPage];
    }

    /**
     * The "media files" row: a click opens the media page. It is not a
     * jump from a notification, so the flag and the jump count stay.
     */
    method OnMediaFileClick()
      requires Valid()
      modifies this`navigations
      ensures Valid()
      ensures navigations == old(navigations) + [MediaPage]
    {
      navigations := navigations + [MediaPage];
    }

    /** `checkAllFilesCount`: the "all files" count is the size of `provideDownloads`. */
    method CheckAllFilesCount(downloads: seq<Download>, onDisk: DownloadItem -> bool)
      modifies this`allFilesCount
      ensures allFilesCount == |ProvideDownloads(downloads, onDisk)|
      ensures allFilesCount <= |downloads|
    {
      var items := ProvideDownloads(downloads, onDisk);
      ProvideDownloadsItems(downloads, onDisk);
      SelectedOrder(downloads, onDisk);
      allFilesCount := |items|;
    }
  }
}
