/**
 * The media page of the video downloader: `DlpMediaFragment` lays the
 * download records out as "downloading first, then finished" and dispatches
 * clicks by record status; `DownloadRecyclerViewAdapter` holds the rows, picks
 * the row layout by view type, and decides row identity and changes for the
 * list diff.
 */
module DownloadList {
  import opened Optional
  import opened SeqUtil

  /** `DownloadStatus` of the downloader library. */
  datatype RecordStatus = StatusDownloading | StatusPause | StatusExpired | StatusFailed
                        | StatusConverting | StatusFinished | StatusOther(value: int)

  /**
   * A `DownloadRecord`: the fields the media page reads by name, and the
   * rest of the data class (title, progress, thumbnail, file extension and
   * the others) in their string form. The page never reads the rest, but
   * data-class equality, and so `areContentsTheSame`, compares it too.
   */
  datatype DownloadRecord = DownloadRecord(
    url: string,
    formatId: string,
    videoHeightSize: string,
    abr: int,
    hasPlayed: bool,
    status: RecordStatus,
    processId: string,
    otherFields: seq<string>)

  /** `ItemDownloadList`: one row; `itemType` is the Kotlin `type`. */
  datatype ItemDownloadList = ItemDownloadList(title: Option<string>, record: Option<DownloadRecord>, itemType: int)

  /** `DownloadListType.DOWNLOADING.value` and `DownloadListType.FINISHED.value`. */
  const TYPE_DOWNLOADING: int := 0
  const TYPE_FINISHED: int := 1

  predicate IsFinished(r: DownloadRecord) {
    r.status == StatusFinished
  }

  predicate IsNotFinished(r: DownloadRecord) {
    r.status != StatusFinished
  }

  /** Rows of type `t` for the records, with the default title "". */
  function Rows(records: seq<DownloadRecord>, t: int): (r: seq<ItemDownloadList>)
    ensures |r| == |records|
  {
    if records == [] then []
    else [ItemDownloadList(Some(""), Some(records[0]), t)] + Rows(records[1..], t)
  }

  /** Row `i` holds record `i`, with the type and the default title. */
  lemma {:induction false} RowsAt(records: seq<DownloadRecord>, t: int)
    ensures forall i :: 0 <= i < |records| ==> Rows(records, t)[i] == ItemDownloadList(Some(""), Some(records[i]), t)
  {
    if records != [] {
      RowsAt(records[1..], t);
    }
  }

  lemma RowsAppend(a: seq<DownloadRecord>, b: seq<DownloadRecord>, t: int)
    ensures Rows(a + b, t) == Rows(a, t) + Rows(b, t)
  {
    RowsAt(a + b, t);
    RowsAt(a, t);
    RowsAt(b, t);
    assert forall i :: 0 <= i < |a + b| ==> Rows(a + b, t)[i] == (Rows(a, t) + Rows(b, t))[i];
  }

  /** The rows `showList` builds: the unfinished records, then the finished ones. */
  function ShowListRows(list: seq<DownloadRecord>): seq<ItemDownloadList> {
    Rows(Filter(list, IsNotFinished), TYPE_DOWNLOADING) + Rows(Filter(list, IsFinished), TYPE_FINISHED)
  }

  /** The records of the rows that have one. */
  function RecordsOf(rows: seq<ItemDownloadList>): seq<DownloadRecord> {
    if rows == [] then []
    else (if rows[0].record.Some? then [rows[0].record.value] else []) + RecordsOf(rows[1..])
  }

  lemma {:induction false} RecordsOfRows(records: seq<DownloadRecord>, t: int)
    ensures RecordsOf(Rows(records, t)) == records
  {
    if records != [] {
      RecordsOfRows(records[1..], t);
      assert Rows(records, t)[1..] == Rows(records[1..], t);
    }
  }

  lemma {:induction false} RecordsOfAppend(a: seq<ItemDownloadList>, b: seq<ItemDownloadList>)
    ensures RecordsOf(a + b) == RecordsOf(a) + RecordsOf(b)
  {
    if a == [] {
      assert a + b == b;
    } else {
      RecordsOfAppend(a[1..], b);
      assert (a + b)[1..] == a[1..] + b;
    }
  }

  /** One more record of the list adds at most one row of its group. */
  lemma RowsOfPrefixStep(list: seq<DownloadRecord>, k: nat, p: DownloadRecord -> bool, t: int)
    requires k < |list|
    ensures Rows(Filter(list[..k + 1], p), t) ==
      Rows(Filter(list[..k], p), t) + (if p(list[k]) then [ItemDownloadList(Some(""), Some(list[k]), t)] else [])
  {
    assert list[..k + 1] == list[..k] + [list[k]];
    FilterAppend(list[..k], [list[k]], p);
    RowsAppend(Filter(list[..k], p), Filter([list[k]], p), t);
  }

  /** A row that holds a record and whose type is that record's group. */
  predicate RowTyped(row: ItemDownloadList) {
    row.record.Some? &&
    row.itemType == (if IsFinished(row.record.value) then TYPE_FINISHED else TYPE_DOWNLOADING)
  }

  /**
   * What `showList` lays out: one row per record; the first `k` rows (`k`
   * the number of unfinished records) hold the unfinished records in input
   * order, the rest the finished ones in input order; every row's type is
   * its record's group.
   */
  lemma ShowListRowsLayout(list: seq<DownloadRecord>)
    ensures var rows := ShowListRows(list);
      var k := |Filter(list, IsNotFinished)|;
      && |rows| == |list|
      && k <= |rows|
      && (forall i :: 0 <= i < |rows| ==> RowTyped(rows[i]))
      && (forall i :: 0 <= i < k ==> !IsFinished(rows[i].record.value))
      && (forall i :: k <= i < |rows| ==> IsFinished(rows[i].record.value))
  {
    var rows := ShowListRows(list);
    var k := |Filter(list, IsNotFinished)|;
    FilterComplement(list, IsFinished, IsNotFinished);
    forall i | 0 <= i < |rows|
      ensures RowTyped(rows[i]) && (i < k <==> !IsFinished(rows[i].record.value))
    {
      ShowListRowAt(list, i);
    }
  }

  lemma ShowListRowAt(list: seq<DownloadRecord>, i: nat)
    requires i < |Filter(list, IsNotFinished)| + |Filter(list, IsFinished)|
    ensures var rows := ShowListRows(list);
      i < |rows| && RowTyped(rows[i]) && (i < |Filter(list, IsNotFinished)| <==> !IsFinished(rows[i].record.value))
  {
    var front := Filter(list, IsNotFinished);
    var back := Filter(list, IsFinished);
    var rows := ShowListRows(list);
    if i < |front| {
      RowAt(front, TYPE_DOWNLOADING, i);
      FilterAt(list, IsNotFinished, i);
      assert rows[i] == Rows(front, TYPE_DOWNLOADING)[i];
    } else {
      RowAt(back, TYPE_FINISHED, i - |front|);
      FilterAt(list, IsFinished, i - |front|);
      assert rows[i] == Rows(back, TYPE_FINISHED)[i - |front|];
    }
  }

  /** Row `i` holds record `i`. */
  lemma {:induction false} RowAt(records: seq<DownloadRecord>, t: int, i: nat)
    requires i < |records|
    ensures Rows(records, t)[i] == ItemDownloadList(Some(""), Some(records[i]), t)
  {
    if i > 0 {
      RowAt(records[1..], t, i - 1);
    }
  }

  /**
   * The records of the first `k` rows are the unfinished records in input
   * order, those of the rest the finished ones in input order.
   */
  lemma ShowListRowsRecords(list: seq<DownloadRecord>)
    ensures var rows := ShowListRows(list);
      var k := |Filter(list, IsNotFinished)|;
      && k <= |rows|
      && RecordsOf(rows[..k]) == Filter(list, IsNotFinished)
      && RecordsOf(rows[k..]) == Filter(list, IsFinished)
  {
    var rows := ShowListRows(list);
    var front := Rows(Filter(list, IsNotFinished), TYPE_DOWNLOADING);
    var back := Rows(Filter(list, IsFinished), TYPE_FINISHED);
    RecordsOfRows(Filter(list, IsNotFinished), TYPE_DOWNLOADING);
    RecordsOfRows(Filter(list, IsFinished), TYPE_FINISHED);
    assert rows[..|front|] == front && rows[|front|..] == back;
  }

  /** `showList` neither loses nor invents a record, nor repeats one. */
  lemma ShowListKeepsRecords(list: seq<DownloadRecord>)
    ensures multiset(RecordsOf(ShowListRows(list))) == multiset(list)
  {
    var front := Rows(Filter(list, IsNotFinished), TYPE_DOWNLOADING);
    var back := Rows(Filter(list, IsFinished), TYPE_FINISHED);
    FilterComplement(list, IsFinished, IsNotFinished);
    RecordsOfRows(Filter(list, IsNotFinished), TYPE_DOWNLOADING);
    RecordsOfRows(Filter(list, IsFinished), TYPE_FINISHED);
    RecordsOfAppend(front, back);
  }

  /** A row's layout, chosen by `onCreateViewHolder`. */
  datatype HolderKind = DownloadingViewHolder | DownloadedViewHolder

  datatype Result<T> = Ok(value: T) | Err(message: string)

  /** `onCreateViewHolder`: type 0 and 1 have layouts; any other type throws. */
  function OnCreateViewHolder(viewType: int): (r: Result<HolderKind>)
    ensures r == Ok(DownloadingViewHolder) <==> viewType == TYPE_DOWNLOADING
    ensures r == Ok(DownloadedViewHolder) <==> viewType == TYPE_FINISHED
    ensures r.Err? <==> viewType !in {TYPE_DOWNLOADING, TYPE_FINISHED}
  {
    if viewType == TYPE_DOWNLOADING then Ok(DownloadingViewHolder)
    else if viewType == TYPE_FINISHED then Ok(DownloadedViewHolder)
    else Err("unknown view type")
  }

  /** Every row `showList` builds has a layout; finished records get the finished one. */
  lemma ShowListRowsHaveLayouts(list: seq<DownloadRecord>)
    ensures forall i :: 0 <= i < |ShowListRows(list)| ==>
      ShowListRows(list)[i].record.Some? &&
      OnCreateViewHolder(ShowListRows(list)[i].itemType) ==
        Ok(if IsFinished(ShowListRows(list)[i].record.value) then DownloadedViewHolder else DownloadingViewHolder)
  {
    ShowListRowsLayout(list);
  }

  // ---------------------------------------------------------------------
  // DownloadDiffCallback
  // ---------------------------------------------------------------------

  /** `record?.field` for the five fields the diff compares. */
  function UrlOf(row: ItemDownloadList): Option<string> {
    if row.record.Some? then Some(row.record.value.url) else None
  }
  function FormatIdOf(row: ItemDownloadList): Option<string> {
    if row.record.Some? then Some(row.record.value.formatId) else None
  }
  function VideoHeightSizeOf(row: ItemDownloadList): Option<string> {
    if row.record.Some? then Some(row.record.value.videoHeightSize) else None
  }
  function AbrOf(row: ItemDownloadList): Option<int> {
    if row.record.Some? then Some(row.record.value.abr) else None
  }
  function HasPlayedOf(row: ItemDownloadList): Option<bool> {
    if row.record.Some? then Some(row.record.value.hasPlayed) else None
  }

  /** `areItemsTheSame`. */
  predicate AreItemsTheSame(oldRow: ItemDownloadList, newRow: ItemDownloadList) {
    UrlOf(oldRow) == UrlOf(newRow) && FormatIdOf(oldRow) == FormatIdOf(newRow) &&
    VideoHeightSizeOf(oldRow) == VideoHeightSizeOf(newRow) && AbrOf(oldRow) == AbrOf(newRow) &&
    HasPlayedOf(oldRow) == HasPlayedOf(newRow)
  }

  /** `areContentsTheSame`. */
  predicate AreContentsTheSame(oldRow: ItemDownloadList, newRow: ItemDownloadList) {
    HasPlayedOf(oldRow) == HasPlayedOf(newRow) && oldRow.record == newRow.record
  }

  /** The identity `areItemsTheSame` compares. */
  datatype RowIdentity = RowIdentity(url: string, formatId: string, videoHeightSize: string, abr: int, hasPlayed: bool)

  function IdentityOf(row: ItemDownloadList): Option<RowIdentity> {
    match row.record
    case None => None
    case Some(r) => Some(RowIdentity(r.url, r.formatId, r.videoHeightSize, r.abr, r.hasPlayed))
  }

  /**
   * Two rows are the same item iff they have the same identity: both without
   * a record, or both with records agreeing on url, format, height, bitrate
   * and played flag. Hence it is an equivalence, and equal contents imply the
   * same item.
   */
  lemma DiffPredicatesProps(a: ItemDownloadList, b: ItemDownloadList, c: ItemDownloadList)
    ensures AreItemsTheSame(a, b) <==> IdentityOf(a) == IdentityOf(b)
    ensures AreItemsTheSame(a, a)
    ensures AreItemsTheSame(a, b) ==> AreItemsTheSame(b, a)
    ensures AreItemsTheSame(a, b) && AreItemsTheSame(b, c) ==> AreItemsTheSame(a, c)
    ensures AreContentsTheSame(a, b) ==> AreItemsTheSame(a, b)
    ensures AreContentsTheSame(a, b) <==> a.record == b.record
  {
    if AreItemsTheSame(a, b) && a.record.Some? {
      assert b.record.Some?;
    }
  }

  /** `getChangePayload`: the new row's played flag, or true without a record. */
  function ChangePayloadHasPlayer(newRow: ItemDownloadList): (hasPlayer: bool)
    ensures newRow.record.Some? ==> hasPlayer == newRow.record.value.hasPlayed
    ensures newRow.record.None? ==> hasPlayer
  {
    HasPlayedOf(newRow).GetOr(true)
  }

  /**
   * The pixels label of a finished row: the height with "P" unless it is
   * "0", else the readable bitrate (`abr2ReadableString`, given as
   * `readableAbr`) unless it is 0, else "".
   */
  function TextPixels(record: DownloadRecord, readableAbr: string): (text: string)
    ensures record.videoHeightSize != "0" ==>
      |text| == |record.videoHeightSize| + 1 && text[|text| - 1] == 'P' &&
      text[..|text| - 1] == record.videoHeightSize
    ensures record.videoHeightSize == "0" && record.abr != 0 ==> text == readableAbr
    ensures record.videoHeightSize == "0" && record.abr == 0 ==> text == ""
  {
    if record.videoHeightSize != "0" then record.videoHeightSize + "P"
    else if record.abr != 0 then readableAbr
    else ""
  }

  // ---------------------------------------------------------------------
  // The adapter
  // ---------------------------------------------------------------------

  /** How the adapter told the list about new data. */
  datatype Notification = DataSetChanged | DiffDispatched(oldRows: seq<ItemDownloadList>, newRows: seq<ItemDownloadList>)

  class DownloadRecyclerViewAdapter {
    var values: seq<ItemDownloadList>
    var notifications: seq<Notification>

    constructor ()
      ensures values == [] && notifications == []
    {
      values := [];
      notifications := [];
    }

    /**
     * `setData`: the rows become `data` either way; with `useNotify` the
     * whole list is redrawn, otherwise the diff from the old rows is
     * dispatched.
     */
    method SetData(data: seq<ItemDownloadList>, useNotify: bool)
      modifies this
      ensures values == data
      ensures notifications == old(notifications) +
        [if useNotify then DataSetChanged else DiffDispatched(old(values), data)]
    {
      if useNotify {
        values := [];
        values := values + data;
        notifications := notifications + [DataSetChanged];
      } else {
        var oldRows := values;
        values := [];
        values := values + data;
        notifications := notifications + [DiffDispatched(oldRows, data)];
      }
    }

    /** `getItemCount`. */
    function GetItemCount(): (n: int)
      reads this
      ensures n == |values| && n >= 0
    {
      |values|
    }

    /** `getItemViewType(position)`, for a position the list shows. */
    function GetItemViewType(position: int): (t: int)
      reads this
      requires 0 <= position < |values|
      ensures t == values[position].itemType
    {
      values[position].itemType
    }
  }

  // ---------------------------------------------------------------------
  // The fragment
  // ---------------------------------------------------------------------

  /** Calls into the download view model. */
  datatype ViewModelCall = PauseDownload(record: DownloadRecord) | ResumeDownload(record: DownloadRecord)
                         | DeleteDownload(record: DownloadRecord) | CancelDownload(record: DownloadRecord)

  /**
   * The `action` of `AppEventReporter.reportDownloadFilePage` on the media
   * page; every report of this page is a click (`Action.CLICK`) on
   * `PageType.MEDIA_FILE`, so the action is all that varies.
   */
  datatype FilePageReport = ReportPlay | ReportPause | ReportContinueDownload
                          | ReportRemoveFile | ReportRemoveTask

  /** What a click handler did. */
  datatype ClickOutcome = Handled | ActivityMissing

  /** The row `onItemClick` opens: a position outside the list falls back to 0. */
  function ClickedPosition(position: int, size: int): (p: int)
    ensures 0 <= position < size ==> p == position
    ensures !(0 <= position < size) ==> p == 0
    ensures size > 0 ==> 0 <= p < size
  {
    if position < 0 || position >= size then 0 else position
  }

  /** Record `k` adds one row to its own group and none to the other. */
  lemma SplitStep(list: seq<DownloadRecord>, k: nat)
    requires k < |list|
    ensures Rows(Filter(list[..k + 1], IsNotFinished), TYPE_DOWNLOADING) ==
      Rows(Filter(list[..k], IsNotFinished), TYPE_DOWNLOADING) +
      (if list[k].status == StatusFinished then [] else [ItemDownloadList(Some(""), Some(list[k]), TYPE_DOWNLOADING)])
    ensures Rows(Filter(list[..k + 1], IsFinished), TYPE_FINISHED) ==
      Rows(Filter(list[..k], IsFinished), TYPE_FINISHED) +
      (if list[k].status == StatusFinished then [ItemDownloadList(Some(""), Some(list[k]), TYPE_FINISHED)] else [])
  {
    RowsOfPrefixStep(list, k, IsNotFinished, TYPE_DOWNLOADING);
    RowsOfPrefixStep(list, k, IsFinished, TYPE_FINISHED);
  }

  /**
   * The `forEach` of `showList`: one pass over the records that puts each
   * into the downloading or the finished buffer.
   */
  method SplitRows(list: seq<DownloadRecord>) returns (downloading: seq<ItemDownloadList>, finish: seq<ItemDownloadList>)
    ensures downloading == Rows(Filter(list, IsNotFinished), TYPE_DOWNLOADING)
    ensures finish == Rows(Filter(list, IsFinished), TYPE_FINISHED)
    ensures downloading + finish == ShowListRows(list)
  {
    downloading := [];
    finish := [];
    var k := 0;
    while k < |list|
      invariant 0 <= k <= |list|
      invariant downloading == Rows(Filter(list[..k], IsNotFinished), TYPE_DOWNLOADING)
      invariant finish == Rows(Filter(list[..k], IsFinished), TYPE_FINISHED)
    {
      var it := list[k];
      SplitStep(list, k);
      if it.status == StatusFinished {
        finish := finish + [ItemDownloadList(Some(""), Some(it), TYPE_FINISHED)];
      } else {
        downloading := downloading + [ItemDownloadList(Some(""), Some(it), TYPE_DOWNLOADING)];
      }
      k := k + 1;
    }
    assert list[..k] == list;
  }

  class DlpMediaFragment {
    const adapter: DownloadRecyclerViewAdapter
    var data: seq<ItemDownloadList>
    var emptyViewShown: bool
    var viewModelCalls: seq<ViewModelCall>
    var deleteDialogs: seq<string>
    var deleteTaskDialogs: seq<string>
    var deletedFileToasts: nat
    var openedFiles: seq<DownloadRecord>
    var reports: seq<FilePageReport>

    constructor ()
      ensures fresh(adapter) && adapter.values == [] && adapter.notifications == []
      ensures data == [] && viewModelCalls == [] && deleteDialogs == [] && deleteTaskDialogs == []
      ensures openedFiles == [] && reports == []
    {
      adapter := new DownloadRecyclerViewAdapter();
      data := [];
      emptyViewShown := false;
      viewModelCalls := [];
      deleteDialogs := [];
      deleteTaskDialogs := [];
      deletedFileToasts := 0;
      openedFiles := [];
      reports := [];
    }

    /**
     * `showList`: rebuilds `data` from scratch as the unfinished records then
     * the finished ones, shows the empty view iff the list is empty, and
     * hands the rows to the adapter.
     */
    method ShowList(list: seq<DownloadRecord>, useNotify: bool)
      modifies this`data, this`emptyViewShown, adapter
      ensures data == ShowListRows(list)
      ensures emptyViewShown <==> list == []
      ensures adapter.values == data
      ensures adapter.notifications == old(adapter.notifications) +
        [if useNotify then DataSetChanged else DiffDispatched(old(adapter.values), data)]
    {
      data := [];
      if list == [] {
        emptyViewShown := true;
      } else {
        emptyViewShown := false;
        var downloading, finish := SplitRows(list);
        // `data` was cleared above: `addAll` of both buffers.
        data := downloading + finish;
      }
      adapter.SetData(data, useNotify);
    }

    /**
     * `onItemDownloadingClick(position)`: only a paused record acts, by
     * resuming; without an activity that throws.
     */
    method OnItemDownloadingClick(position: int, hasActivity: bool) returns (outcome: ClickOutcome)
      requires 0 <= position < |data|
      modifies this`viewModelCalls
      ensures var record := data[position].record;
        if record.Some? && record.value.status == StatusPause then
          (outcome == Handled <==> hasActivity) &&
          viewModelCalls == old(viewModelCalls) + (if hasActivity then [ResumeDownload(record.value)] else [])
        else outcome == Handled && viewModelCalls == old(viewModelCalls)
    {
      outcome := Handled;
      var record := data[position].record;
      if record.None? {
        return;
      }
      match record.value.status {
        case StatusPause =>
          if hasActivity {
            viewModelCalls := viewModelCalls + [ResumeDownload(record.value)];
          } else {
            outcome := ActivityMissing;
          }
        case _ =>
      }
    }

    /**
     * `onItemClick(position)`: the clicked row (position 0 when out of
     * range) opens its file when the file exists and shows the "deleted"
     * toast when it does not; an empty list or a row without a record does
     * nothing (the index error is caught). Opening a file (`clickFile`)
     * reports PLAY first.
     */
    method OnItemClick(position: int, fileExists: DownloadRecord -> bool)
      modifies this`openedFiles, this`deletedFileToasts, this`reports
      ensures data == [] || data[ClickedPosition(position, |data|)].record.None? ==>
        openedFiles == old(openedFiles) && deletedFileToasts == old(deletedFileToasts) &&
        reports == old(reports)
      ensures data != [] && data[ClickedPosition(position, |data|)].record.Some? ==>
        var record := data[ClickedPosition(position, |data|)].record.value;
        if fileExists(record) then
          openedFiles == old(openedFiles) + [record] && deletedFileToasts == old(deletedFileToasts) &&
          reports == old(reports) + [ReportPlay]
        else
          openedFiles == old(openedFiles) && deletedFileToasts == old(deletedFileToasts) + 1 &&
          reports == old(reports)
    {
      var finalPos := position;
      if position < 0 || position >= |data| {
        finalPos := 0;
      }
      if finalPos >= |data| {
        // `data[0]` of an empty list throws, and the exception is caught.
        return;
      }
      var record := data[finalPos].record;
      if record.None? {
        return;
      }
      if !fileExists(record.value) {
        deletedFileToasts := deletedFileToasts + 1;
        return;
      }
      reports := reports + [ReportPlay];
      openedFiles := openedFiles + [record.value];
    }

    /**
     * `onPauseResumeDelClick(position)`: a downloading record is paused, a
     * paused one resumed (throwing without an activity), a finished one asks
     * for deletion; failed and other records do nothing. Pausing reports
     * PAUSE and resuming reports CONTINUE_DOWNLOAD, each before its call.
     */
    method OnPauseResumeDelClick(position: int, hasActivity: bool) returns (outcome: ClickOutcome)
      requires 0 <= position < |data|
      modifies this`viewModelCalls, this`deleteDialogs, this`reports
      ensures var record := data[position].record;
        match record
        case None =>
          outcome == Handled && viewModelCalls == old(viewModelCalls) && deleteDialogs == old(deleteDialogs) &&
          reports == old(reports)
        case Some(r) =>
          match r.status
          case StatusDownloading =>
            outcome == Handled && viewModelCalls == old(viewModelCalls) + [PauseDownload(r)] &&
            deleteDialogs == old(deleteDialogs) && reports == old(reports) + [ReportPause]
          case StatusPause =>
            (outcome == Handled <==> hasActivity) && deleteDialogs == old(deleteDialogs) &&
            viewModelCalls == old(viewModelCalls) + (if hasActivity then [ResumeDownload(r)] else []) &&
            reports == old(reports) + (if hasActivity then [ReportContinueDownload] else [])
          case StatusFinished =>
            outcome == Handled && viewModelCalls == old(viewModelCalls) && deleteDialogs == old(deleteDialogs) + [r.url] &&
            reports == old(reports)
          case _ =>
            outcome == Handled && viewModelCalls == old(viewModelCalls) && deleteDialogs == old(deleteDialogs) &&
            reports == old(reports)
    {
      outcome := Handled;
      var record := data[position].record;
      if record.None? {
        return;
      }
      var r := record.value;
      match r.status {
        case StatusDownloading =>
          reports := reports + [ReportPause];
          viewModelCalls := viewModelCalls + [PauseDownload(r)];
        case StatusPause =>
          if hasActivity {
            reports := reports + [ReportContinueDownload];
            viewModelCalls := viewModelCalls + [ResumeDownload(r)];
          } else {
            outcome := ActivityMissing;
          }
        case StatusFinished =>
          deleteDialogs := deleteDialogs + [r.url];
        case StatusFailed =>
        case _ =>
      }
    }

    /**
     * The delete dialog's confirmation for `record` with the dialog's `url`.
     * The `find` predicate ignores the element it is given and compares the
     * captured record's url, so the record is deleted iff its url is the
     * confirmed one and the page lists any row at all; the deletion is
     * reported as REMOVE_FILE first.
     */
    method OnConfirmDeleteDownload(record: DownloadRecord, url: string)
      modifies this`viewModelCalls, this`reports
      ensures viewModelCalls == old(viewModelCalls) +
        (if record.url == url && data != [] then [DeleteDownload(record)] else [])
      ensures reports == old(reports) +
        (if record.url == url && data != [] then [ReportRemoveFile] else [])
    {
      var found := false;
      var k := 0;
      while k < |data| && !found
        invariant 0 <= k <= |data|
        invariant found <==> k > 0 && record.url == url
      {
        if record.url == url {
          found := true;
        }
        k := k + 1;
      }
      if found {
        reports := reports + [ReportRemoveFile];
        viewModelCalls := viewModelCalls + [DeleteDownload(record)];
      }
    }

    /**
     * `onCancelClick(position)`: a row with a record asks to cancel its
     * task, identified by the record's process id.
     */
    method OnCancelClick(position: int)
      requires 0 <= position < |data|
      modifies this`deleteTaskDialogs
      ensures deleteTaskDialogs == old(deleteTaskDialogs) +
        (if data[position].record.Some? then [data[position].record.value.processId] else [])
    {
      var record := data[position].record;
      if record.None? {
        return;
      }
      deleteTaskDialogs := deleteTaskDialogs + [record.value.processId];
    }

    /**
     * The cancel dialog's confirmation for `record` with the dialog's
     * `processId`; its `find` has the same shape as the delete one and
     * cancels iff the process ids agree and the page lists any row,
     * reporting REMOVE_TASK first.
     */
    method OnConfirmDeleteTask(record: DownloadRecord, processId: string)
      modifies this`viewModelCalls, this`reports
      ensures viewModelCalls == old(viewModelCalls) +
        (if record.processId == processId && data != [] then [CancelDownload(record)] else [])
      ensures reports == old(reports) +
        (if record.processId == processId && data != [] then [ReportRemoveTask] else [])
    {
      var found := false;
      var k := 0;
      while k < |data| && !found
        invariant 0 <= k <= |data|
        invariant found <==> k > 0 && record.processId == processId
      {
        if record.processId == processId {
          found := true;
        }
        k := k + 1;
      }
      if found {
        reports := reports + [ReportRemoveTask];
        viewModelCalls := viewModelCalls + [CancelDownload(record)];
      }
    }
  }
}
