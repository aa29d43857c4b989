# A verified model of the MAX Browser additions to Fenix

MAX Browser is an Android browser built on Mozilla's Fenix. It adds the
following on top of the upstream browser:

- a video downloader with a media page and a "my files" page;
- a "my documents" page that collects PDF files from storage and from a PDF cache;
- a floating download button on the browser page;
- a home-screen native ad;
- default-browser prompts that are shown at most a few times a day;
- QR-code and dynamic-link intent processors.

This project models the logic of those features in Dafny and proves what
the code promises about them. Each Kotlin file is modelled in its own form:

- Extension functions and pure helpers become functions, with lemmas about them.
- Fragments, view holders, adapters and feature classes become classes. Their
  fields are the state the Kotlin code updates. Their `ensures` give the new
  value of every field a method changes, case by case.
- Loops the code runs are methods with invariants, proved against the function
  that specifies them.

| file | models |
|---|---|
| `seq_util.dfy` | The Kotlin collection operations the code uses, with their properties: `filter`, `map`, `distinctBy` (first element per key), and `sortedBy`/`sortedByDescending` (stable insertion sort). |
| `uri_query.dfy` | `Uri.containsQueryParameters` and the `split("=")` it relies on. |
| `top_sites.dfy` | `TopSite.name`, `List<TopSite>.sort` and `checkToAddStatusSaverTopSite`. |
| `home_menu.dfy` | The home menu's item list and its reports to the menu builder. |
| `download_list.dfy` | The media download page (`DlpMediaFragment`), its adapter and the diff callback. |
| `my_files.dfy` | `MyFileFragment`, including the `provideDownloads` pipeline. |
| `my_documents.dfy` | `MyDocumentsUseCase` and `MyDocumentsViewModel`. |
| `theme.dfy` | `ThemeManager`'s theme resource, status-bar and navigation-bar updates, and `DefaultThemeManager`. |
| `browser_fragment.dfy` | The MAX parts of `BaseBrowserFragment`: the download dialog state, the download button, the repeating check, permissions routing and the back-press session removal. |
| `fullscreen.dfy` | `MaxFullscreenFeature`. |
| `default_browser_sheets.dfy` | The two default-browser bottom sheets' "should it show" checks. |
| `home_native_ad.dfy` | `HomeNativeAdViewHolder`. |
| `intent_processors.dfy` | The five QR-code, dynamic-link and shortcut intent processors. |

Source paths below are relative to the repository root.

## Model

Per-index and one-step lemmas and small helper functions that only serve
the members below have no row of their own: `DownloadList.RowsAt`, `RowAt`,
`RecordsOfAppend`, `RowsOfPrefixStep` and `ShowListRowAt`, and
`HomeMenu.DividersOfParts` and `HomeMenu.Opt` (one `listOfNotNull` slot).

| member | source | states |
|---|---|---|
| UriQuery.GetQueryParameter | app/src/main/java/org/mozilla/fenix/ext/Uri.kt:29-34 | `getQueryParameter` returns nothing exactly when no parameter has that name. Otherwise it returns the value of the first parameter with that name. |
| UriQuery.SplitJoin | app/src/main/java/org/mozilla/fenix/ext/Uri.kt:26 | `split("=")` loses nothing: joining the parts with '=' restores the string. There is one more part than there are '=' characters, and no part contains '='. |
| UriQuery.SplitNoDelimiter | app/src/main/java/org/mozilla/fenix/ext/Uri.kt:26 | A string without '=' splits into itself alone, which is the one-part case. |
| UriQuery.SplitAfterPrefix | app/src/main/java/org/mozilla/fenix/ext/Uri.kt:26 | For a prefix without '=', "prefix=rest" splits into the prefix followed by the parts of the rest. |
| UriQuery.BlankOrOpaqueNeverMatches | app/src/main/java/org/mozilla/fenix/ext/Uri.kt:22-25 | A blank search string never matches, and an opaque URI never matches. |
| UriQuery.KeyOnlyMatch | app/src/main/java/org/mozilla/fenix/ext/Uri.kt:18-31 | "key" matches iff the URI is hierarchical, names the key, and its value is blank. This is the code's rule; the doc comment at line 18 says "key" matches any or no value. |
| UriQuery.KeyValueMatch | app/src/main/java/org/mozilla/fenix/ext/Uri.kt:32-35 | "key=value" matches iff the URI is hierarchical, names the key, and the key's first value is exactly `value`. So "key=" matches only an empty value. |
| UriQuery.NextLineIsNotBlank | app/src/main/java/org/mozilla/fenix/ext/Uri.kt:22-31 | NEXT LINE (U+0085) is not whitespace for `isBlank`. So "k" does not match a value of U+0085, and U+0085 alone is a search key that can match. |
| UriQuery.TwoDelimitersNeverMatch | app/src/main/java/org/mozilla/fenix/ext/Uri.kt:36 | A search string with two or more '=' never matches. |
| TopSites.Name | app/src/main/java/org/mozilla/fenix/ext/TopSite.kt:14-19 | The type name is one of the four names, and it is "DEFAULT" exactly for default sites. |
| TopSites.NameDistinguishesKinds | app/src/main/java/org/mozilla/fenix/ext/TopSite.kt:14-19 | Two sites have the same type name iff they are of the same kind. |
| TopSites.DefaultRank | app/src/main/java/org/mozilla/fenix/ext/TopSite.kt:27-39 | A default site's rank lies in 0..7. It is 0 exactly for the status-saver URL and 7 exactly for URLs outside the six listed ones. |
| TopSites.SortSpec | app/src/main/java/org/mozilla/fenix/ext/TopSite.kt:25-43 | `sort` returns a permutation of its input with non-decreasing keys. Sites with equal keys keep their input order, because `sortedBy` is stable. |
| TopSites.StatusSaverSortsFirst | app/src/main/java/org/mozilla/fenix/ext/TopSite.kt:25-43 | The code's order, which gives the status saver key 0 and Google key 1: when a default status-saver site is present and the other sites have positive creation times, a default status-saver site sorts first. The doc comment at lines 21-23 says Google comes first; that holds only without a status-saver site. |
| TopSites.GoogleFirstWithoutStatusSaver | app/src/main/java/org/mozilla/fenix/ext/TopSite.kt:21-43 | The doc comment's promise, in the case where it holds: with a default Google site, no default status-saver site, and the other sites created after time 1, a default Google site sorts first. |
| TopSites.CheckToAddStatusSaverTopSite | app/src/main/java/org/mozilla/fenix/ext/TopSite.kt:48-60 | The loop's result equals the specifying function. A row that already has the status-saver URL is returned unchanged. Otherwise the status-saver site is put in front. |
| TopSites.WithStatusSaverProps | app/src/main/java/org/mozilla/fenix/ext/TopSite.kt:45-60 | Afterwards the status-saver URL is always present. At most one site is added, and the input follows unchanged. A second call changes nothing. |
| HomeMenu.FixedEntriesInOrder | app/src/main/java/org/mozilla/fenix/home/HomeMenu.kt:241-257 | The menu has 9 to 13 entries. It starts with bookmarks, history, downloads and extensions. The divider, desktop, divider and customize entries follow the optional account entries. Settings comes after the optional default-browser entry and is last unless quit follows. |
| HomeMenu.TwoDividers | app/src/main/java/org/mozilla/fenix/home/HomeMenu.kt:241-257 | The menu holds exactly two dividers, the ones around the desktop entry, whatever optional entries are present. |
| HomeMenu.ReconnectItemPlacement | app/src/main/java/org/mozilla/fenix/home/HomeMenu.kt:223-247 | The reconnect-to-sync item is listed iff the account manager is ready and the account needs re-authentication. It is then the fifth entry. |
| HomeMenu.ManageAccountItemPresence | app/src/main/java/org/mozilla/fenix/home/HomeMenu.kt:248 | The manage-account item is listed iff the channel is Mozilla Online. |
| HomeMenu.SetDefaultBrowserItemPresence | app/src/main/java/org/mozilla/fenix/home/HomeMenu.kt:255 | The set-default-browser item is missing iff default-browser prompts are blocked. |
| HomeMenu.QuitItemPlacement | app/src/main/java/org/mozilla/fenix/home/HomeMenu.kt:257 | The quit item is listed iff browsing data is deleted on quit, and it is then last. |
| HomeMenu.HomeMenu.constructor | app/src/main/java/org/mozilla/fenix/home/HomeMenu.kt:258-269 | `init` builds the item list and reports it once. The highlight is reported iff the reconnect item is listed. No observer is registered yet. |
| HomeMenu.HomeMenu.OnAccountManagerReady | app/src/main/java/org/mozilla/fenix/home/HomeMenu.kt:272-277 | The queued task registers the account observer unless the lifecycle is already destroyed. |
| HomeMenu.HomeMenu.OnAccountEvent | app/src/main/java/org/mozilla/fenix/home/HomeMenu.kt:278-308 | Each of the three account events re-reports the same item list iff the observer is registered. |
| HomeMenu.HomeMenu.ReconnectFixedAtInit | app/src/main/java/org/mozilla/fenix/home/HomeMenu.kt:241-308 | Account events re-report the items built at `init`. So every report lists the reconnect item iff the account manager was ready and needed reauthentication when the menu was built, even after an authentication problem. |
| HomeMenu.HomeMenu.ReportsNeverChange | app/src/main/java/org/mozilla/fenix/home/HomeMenu.kt:265-312 | Every report holds the list built at `init`. The menu never changes after it is created. |
| DownloadList.Rows | app/src/main/java/org/mozilla/fenix/videodownloader/DlpMediaFragment.kt:85-101 | Wrapping records as rows of one type keeps one row per record. |
| DownloadList.RowsAppend | app/src/main/java/org/mozilla/fenix/videodownloader/DlpMediaFragment.kt:85-101 | Wrapping distributes over concatenation. |
| DownloadList.RecordsOfRows | app/src/main/java/org/mozilla/fenix/videodownloader/DlpMediaFragment.kt:85-101 | Unwrapping the rows gives back the records. |
| DownloadList.ShowListRowsLayout | app/src/main/java/org/mozilla/fenix/videodownloader/DlpMediaFragment.kt:76-107 | Every row of `showList` has a record and the type matching its status. All unfinished rows come before all finished ones. |
| DownloadList.ShowListRowsRecords | app/src/main/java/org/mozilla/fenix/videodownloader/DlpMediaFragment.kt:102-103 | The records of the rows are the unfinished records in input order, followed by the finished ones in input order. |
| DownloadList.ShowListKeepsRecords | app/src/main/java/org/mozilla/fenix/videodownloader/DlpMediaFragment.kt:76-107 | The rows hold exactly the input records: nothing is lost and nothing is duplicated. |
| DownloadList.OnCreateViewHolder | app/src/main/java/org/mozilla/fenix/videodownloader/DownloadRecyclerViewAdapter.kt:22-46 | View type 0 gets the downloading holder and type 1 the finished holder. Any other type is an error. |
| DownloadList.ShowListRowsHaveLayouts | app/src/main/java/org/mozilla/fenix/videodownloader/DownloadRecyclerViewAdapter.kt:22-46 | Every row that `showList` builds gets a holder without error, and finished records get the finished holder. |
| DownloadList.DiffPredicatesProps | app/src/main/java/org/mozilla/fenix/videodownloader/DownloadRecyclerViewAdapter.kt:270-279 | `areItemsTheSame` holds iff the rows' identities (url, format, height, bitrate, played) agree, so it is an equivalence. Equal contents imply the same item. `areContentsTheSame` holds iff the records are equal in every field, including the ones the page never reads. |
| DownloadList.ChangePayloadHasPlayer | app/src/main/java/org/mozilla/fenix/videodownloader/DownloadRecyclerViewAdapter.kt:282-286 | The payload is the new row's played flag, or true when there is no record. |
| DownloadList.TextPixels | app/src/main/java/org/mozilla/fenix/videodownloader/DownloadRecyclerViewAdapter.kt:140-150 | The label is the height followed by "P" unless the height is "0". Otherwise it is the readable bitrate when the bitrate is non-zero, and "" when it is zero. |
| DownloadList.DownloadRecyclerViewAdapter.constructor | app/src/main/java/org/mozilla/fenix/videodownloader/DownloadRecyclerViewAdapter.kt:18-19 | The adapter starts with no rows. |
| DownloadList.DownloadRecyclerViewAdapter.SetData | app/src/main/java/org/mozilla/fenix/videodownloader/DownloadRecyclerViewAdapter.kt:162-174 | Either way the rows become `data`. With `useNotify` the whole list is redrawn; otherwise the diff from the old rows is dispatched. |
| DownloadList.DownloadRecyclerViewAdapter.GetItemCount | app/src/main/java/org/mozilla/fenix/videodownloader/DownloadRecyclerViewAdapter.kt:156 | The count is the number of rows. |
| DownloadList.DownloadRecyclerViewAdapter.GetItemViewType | app/src/main/java/org/mozilla/fenix/videodownloader/DownloadRecyclerViewAdapter.kt:158-160 | The view type is the row's own type. |
| DownloadList.ClickedPosition | app/src/main/java/org/mozilla/fenix/videodownloader/DlpMediaFragment.kt:160-166 | A position inside the list is kept and one outside falls back to 0. In a non-empty list the result is always a valid index. |
| DownloadList.SplitStep | app/src/main/java/org/mozilla/fenix/videodownloader/DlpMediaFragment.kt:85-101 | One iteration of the `forEach` adds record k to exactly one of the two buffers, chosen by its status. |
| DownloadList.SplitRows | app/src/main/java/org/mozilla/fenix/videodownloader/DlpMediaFragment.kt:82-103 | The loop leaves the unfinished rows and the finished rows in input order. Together they are the rows of `showList`. |
| DownloadList.DlpMediaFragment.constructor | app/src/main/java/org/mozilla/fenix/videodownloader/DlpMediaFragment.kt:37 | The page starts with no rows, nothing requested and nothing reported. |
| DownloadList.DlpMediaFragment.ShowList | app/src/main/java/org/mozilla/fenix/videodownloader/DlpMediaFragment.kt:76-107 | `data` is rebuilt as the rows of the list. The empty view shows iff the list is empty. The adapter receives the rows with the requested notification. |
| DownloadList.DlpMediaFragment.OnItemDownloadingClick | app/src/main/java/org/mozilla/fenix/videodownloader/DlpMediaFragment.kt:145-158 | Only a paused record acts, and it is resumed. Without an activity this is the error outcome. |
| DownloadList.DlpMediaFragment.OnItemClick | app/src/main/java/org/mozilla/fenix/videodownloader/DlpMediaFragment.kt:160-178 | The clicked row opens its file when the file exists, after reporting PLAY. Otherwise the row shows the "deleted" toast and reports nothing. An empty list or a row without a record does nothing. |
| DownloadList.DlpMediaFragment.OnPauseResumeDelClick | app/src/main/java/org/mozilla/fenix/videodownloader/DlpMediaFragment.kt:186-218 | A downloading record is paused, reporting PAUSE. A paused one is resumed, reporting CONTINUE_DOWNLOAD; without an activity nothing is reported or called and the outcome is the error. A finished record asks for deletion by url. A failed or other record does nothing. |
| DownloadList.DlpMediaFragment.OnConfirmDeleteDownload | app/src/main/java/org/mozilla/fenix/videodownloader/DlpMediaFragment.kt:203-207 | The record is deleted, and REMOVE_FILE reported, iff its url is the confirmed url and the page lists any row. The `find` lambda ignores its element. |
| DownloadList.DlpMediaFragment.OnCancelClick | app/src/main/java/org/mozilla/fenix/videodownloader/DlpMediaFragment.kt:220-223 | A row with a record asks to cancel the task with that record's process id. |
| DownloadList.DlpMediaFragment.OnConfirmDeleteTask | app/src/main/java/org/mozilla/fenix/videodownloader/DlpMediaFragment.kt:225-229 | The download is cancelled, and REMOVE_TASK reported, iff the process ids agree and the page lists any row. |
| MyFiles.DigitChar | app/src/main/java/org/mozilla/fenix/videodownloader/MyFileFragment.kt:110 | A digit maps to a character between '0' and '9'. |
| MyFiles.NatDigits | app/src/main/java/org/mozilla/fenix/videodownloader/MyFileFragment.kt:110 | The decimal form of a natural number is non-empty and consists of digits only. It has at least two digits from 10 upward. |
| MyFiles.NatDigitsRoundTrip | app/src/main/java/org/mozilla/fenix/videodownloader/MyFileFragment.kt:110 | Reading the digits back gives the number. |
| MyFiles.DecimalString | app/src/main/java/org/mozilla/fenix/videodownloader/MyFileFragment.kt:110 | `Long.toString` is "0" exactly for 0 and starts with '-' exactly for negatives. |
| MyFiles.DecimalStringRoundTrip | app/src/main/java/org/mozilla/fenix/videodownloader/MyFileFragment.kt:110 | Reading the digits back gives the number, or its absolute value after the sign. |
| MyFiles.ToItem | app/src/main/java/org/mozilla/fenix/videodownloader/MyFileFragment.kt:104-113 | The item copies id, url, file name, path, content type and status. The size is the length's decimal string, or "0" when the length is unknown. |
| MyFiles.ProvideDownloadsItems | app/src/main/java/org/mozilla/fenix/videodownloader/MyFileFragment.kt:100-117 | Filtering after the `map` is the same as mapping the selected downloads. |
| MyFiles.SelectedOrder | app/src/main/java/org/mozilla/fenix/videodownloader/MyFileFragment.kt:100-117 | There are no more entries than downloads. The entries are newest first, and no file name appears twice. |
| MyFiles.SelectedEntries | app/src/main/java/org/mozilla/fenix/videodownloader/MyFileFragment.kt:100-117 | Every entry is completed and on disk, and it is the first download with its file name. |
| MyFiles.ListedIffFirstCompleted | app/src/main/java/org/mozilla/fenix/videodownloader/MyFileFragment.kt:101-116 | Deduplication runs before the status filter. A file name is listed iff its first download is completed and on disk. |
| MyFiles.FirstOfFound | app/src/main/java/org/mozilla/fenix/videodownloader/MyFileFragment.kt:102 | The first element found for a key has that key and comes from the list. |
| MyFiles.MyFileFragment.constructor | app/src/main/java/org/mozilla/fenix/videodownloader/MyFileFragment.kt:34 | The fragment has not yet come from a notification and has not navigated. |
| MyFiles.MyFileFragment.OnViewCreated | app/src/main/java/org/mozilla/fenix/videodownloader/MyFileFragment.kt:74-82 | The argument opens the media page only the first time. The flag remembers that, so the fragment makes at most one notification jump. |
| MyFiles.MyFileFragment.OnAllFilesClick | app/src/main/java/org/mozilla/fenix/videodownloader/MyFileFragment.kt:62-66 | A click on the "all files" row navigates to the downloads page, and nothing else changes. |
| MyFiles.MyFileFragment.OnMediaFileClick | app/src/main/java/org/mozilla/fenix/videodownloader/MyFileFragment.kt:68-72 | A click on the "media files" row navigates to the media page. It does not count as the notification jump. |
| MyFiles.MyFileFragment.CheckAllFilesCount | app/src/main/java/org/mozilla/fenix/videodownloader/MyFileFragment.kt:91-97 | The shown count is the number of provided downloads, which never exceeds the number of downloads. |
| MyDocuments.FromQueryData | app/src/main/java/org/mozilla/fenix/home/mydocuments/MyDocumentsUseCase.kt:75-83 | An item copies the query result's name, uri, mime type, size and modification time. |
| MyDocuments.CacheItem | app/src/main/java/org/mozilla/fenix/home/mydocuments/MyDocumentsUseCase.kt:101-111 | A cache entry becomes a PDF item with the cache file's uri and length and the entry's creation date. |
| MyDocuments.CacheItemsMembers | app/src/main/java/org/mozilla/fenix/home/mydocuments/MyDocumentsUseCase.kt:87-112 | An item comes from the cache iff its entry's source uri is not listed and its cache file exists. There are no more such items than entries. |
| MyDocuments.HasFound | app/src/main/java/org/mozilla/fenix/home/mydocuments/MyDocumentsUseCase.kt:92-97 | The `for` loop finds a listed item with the entry's source uri iff one exists. |
| MyDocuments.QueryDocumentCache | app/src/main/java/org/mozilla/fenix/home/mydocuments/MyDocumentsUseCase.kt:87-112 | The filter, filter and map chain computes exactly the cache items that `CacheItemsMembers` characterises. |
| MyDocuments.WhatsAppPaths | app/src/main/java/org/mozilla/fenix/home/mydocuments/MyDocumentsUseCase.kt:65-67 | There is one "storage/name/Media/name Documents" path per WhatsApp name, in order. |
| MyDocuments.PathList | app/src/main/java/org/mozilla/fenix/home/mydocuments/MyDocumentsUseCase.kt:59-67 | The storage root, downloads and documents folders come first, then the WhatsApp paths. |
| MyDocuments.PathItemsDistinct | app/src/main/java/org/mozilla/fenix/home/mydocuments/MyDocumentsUseCase.kt:69-75 | No two path items share a source uri, and every source uri that some path returned is represented. |
| MyDocuments.QueryDocumentFromPath | app/src/main/java/org/mozilla/fenix/home/mydocuments/MyDocumentsUseCase.kt:56-85 | The method computes the path items: the first result per source uri over the paths in order. |
| MyDocuments.BuildPathList | app/src/main/java/org/mozilla/fenix/home/mydocuments/MyDocumentsUseCase.kt:59-67 | The appending loop builds exactly the path list. |
| MyDocuments.QueryPaths | app/src/main/java/org/mozilla/fenix/home/mydocuments/MyDocumentsUseCase.kt:69-71 | The `forEach` collects every path's results in path order. |
| MyDocuments.MergedSortedProps | app/src/main/java/org/mozilla/fenix/home/mydocuments/MyDocumentsUseCase.kt:18-35 | The merged list holds exactly the primary items and the surviving cache items. It is sorted newest first. |
| MyDocuments.QueryDocument | app/src/main/java/org/mozilla/fenix/home/mydocuments/MyDocumentsUseCase.kt:18-35 | From Android Q on, the document tree is queried; below Q, the fixed paths are. The cache items are added and the result is sorted newest first. |
| MyDocuments.HasPermission | app/src/main/java/org/mozilla/fenix/library/mydocuments/MyDocumentsViewModel.kt:52-56 | From Android Q on, permission means a stored tree uri. Below Q, it means the storage permissions are granted. |
| MyDocuments.FinalState | app/src/main/java/org/mozilla/fenix/library/mydocuments/MyDocumentsViewModel.kt:104-113 | Without permission the state is NoPermission. With permission it is Empty for an empty result and Success with the result otherwise. |
| MyDocuments.MyDocumentsViewModel.constructor | app/src/main/java/org/mozilla/fenix/library/mydocuments/MyDocumentsViewModel.kt:34-36 | The state starts as NoPermission. |
| MyDocuments.MyDocumentsViewModel.QueryDocuments | app/src/main/java/org/mozilla/fenix/library/mydocuments/MyDocumentsViewModel.kt:39-116 | Loading is emitted first. Then the final state is emitted, computed from the tree items and the surviving cache items sorted newest first. |
| MyDocuments.SuccessListProps | app/src/main/java/org/mozilla/fenix/library/mydocuments/MyDocumentsViewModel.kt:77-113 | A Success list is non-empty, newest first, and holds exactly the tree items and the cache items. The state is Empty iff both are empty. |
| Theme.CurrentThemeResource | app/src/main/java/org/mozilla/fenix/theme/ThemeManager.kt:41-53 | Normal mode gets the normal theme. Private mode gets the private theme, or on the MAX channel the toolbar-position variant. |
| Theme.ThemeResourceDeterminesMode | app/src/main/java/org/mozilla/fenix/theme/ThemeManager.kt:41-53 | The normal theme is chosen iff the mode is normal. On the MAX channel, private mode chooses the top-toolbar theme iff the toolbar is at the top. |
| Theme.ThemedBarsProps | app/src/main/java/org/mozilla/fenix/theme/ThemeManager.kt:59-79 | Private mode, and normal mode at night, get dark bars: a transparent, non-light status bar from SDK 23 on, no light navigation bar from SDK 26 on, and the layer-1 navigation bar. Normal mode by day, or with the night bits undefined, gets light bars: the light status bar from SDK 23 on (black before), and the light navigation bar from SDK 26 on. The remaining night-bits value matches no branch and changes nothing. |
| Theme.ThemedBarsIdempotent | app/src/main/java/org/mozilla/fenix/theme/ThemeManager.kt:59-79 | Applying the status-bar theme twice is the same as applying it once. |
| Theme.Window.constructor | app/src/main/java/org/mozilla/fenix/theme/ThemeManager.kt:59 | A window holds the given bar state. |
| Theme.Window.GetBars | app/src/main/java/org/mozilla/fenix/theme/ThemeManager.kt:100-138 | The bar state is read from the window's four fields. |
| Theme.Window.UpdateLightSystemBars | app/src/main/java/org/mozilla/fenix/theme/ThemeManager.kt:100-114 | The window's bars become the light bars of their old state. |
| Theme.Window.ClearLightSystemBars | app/src/main/java/org/mozilla/fenix/theme/ThemeManager.kt:116-126 | The light status bar is cleared on SDK 23 and later, and the light navigation bar on SDK 26 and later. Nothing else changes. |
| Theme.Window.UpdateNavigationBar | app/src/main/java/org/mozilla/fenix/theme/ThemeManager.kt:128-130 | Only the navigation bar colour changes, to layer 1. |
| Theme.Window.UpdateLightNavigationBar | app/src/main/java/org/mozilla/fenix/theme/ThemeManager.kt:132-138 | Only the navigation bar colour changes, to the day-light layer on the MAX channel and to layer 1 otherwise. |
| Theme.ApplyStatusBarTheme | app/src/main/java/org/mozilla/fenix/theme/ThemeManager.kt:59-79 | The window's bars become the themed bars of their old state. |
| Theme.Activity.constructor | app/src/main/java/org/mozilla/fenix/theme/ThemeManager.kt:152-158 | An activity starts without the private-browsing extra and without recreations. |
| Theme.DefaultThemeManager.constructor | app/src/main/java/org/mozilla/fenix/theme/ThemeManager.kt:142-145 | The manager starts with the given theme and activity. |
| Theme.DefaultThemeManager.SetCurrentTheme | app/src/main/java/org/mozilla/fenix/theme/ThemeManager.kt:146-161 | An unchanged theme, an external-app browser or a finishing activity changes nothing. Otherwise the theme is stored, the private-browsing extra is set to the new mode, and the activity is recreated once. |
| BrowserFragment.ShouldShowCompletedDownloadDialog | app/src/main/java/org/mozilla/fenix/browser/BaseBrowserFragment.kt:1627-1637 | The dialog is shown iff the download completed or failed and belongs to the current tab. Without a current tab it is never shown. |
| BrowserFragment.ShouldPullToRefreshBeEnabled | app/src/main/java/org/mozilla/fenix/browser/BaseBrowserFragment.kt:1066-1069 | Pull-to-refresh is never enabled in fullscreen. The rule is exactly the feature flag, the setting and not being in fullscreen. |
| BrowserFragment.FeatureFor | app/src/main/java/org/mozilla/fenix/browser/BaseBrowserFragment.kt:1283-1295 | Request codes 1, 2 and 3 route to the download, prompt and site-permissions features. Any other code routes nowhere. |
| BrowserFragment.PermissionRoutingRoundTrip | app/src/main/java/org/mozilla/fenix/browser/BaseBrowserFragment.kt:1578-1580 | Each feature's request code routes back to that feature, and only that code does. |
| BrowserFragment.BrowserFragment.constructor | app/src/main/java/org/mozilla/fenix/browser/BaseBrowserFragment.kt:218-222 | The fragment starts with no saved dialogs, no repeating check, a NORMAL button state and no reports. |
| BrowserFragment.BrowserFragment.AtMostOneRepeatingCheck | app/src/main/java/org/mozilla/fenix/browser/BaseBrowserFragment.kt:1766-1781 | At most one repeating check runs, and one runs iff the started flag is set. |
| BrowserFragment.BrowserFragment.SaveDownloadDialogState | app/src/main/java/org/mozilla/fenix/browser/BaseBrowserFragment.kt:1004-1015 | A session id gets the download and whether it failed. Every other entry is kept. A null id changes nothing. |
| BrowserFragment.BrowserFragment.ResumeDownloadDialogState | app/src/main/java/org/mozilla/fenix/browser/BaseBrowserFragment.kt:1024-1064 | Without a saved entry the dialog is hidden. With one, it is shown again with the saved download and failure flag. The map is unchanged. |
| BrowserFragment.BrowserFragment.OnResumedTryAgain | app/src/main/java/org/mozilla/fenix/browser/BaseBrowserFragment.kt:1037-1046 | "Try again" re-dispatches the saved download for the same session with confirmation skipped. |
| BrowserFragment.BrowserFragment.OnResumedDismiss | app/src/main/java/org/mozilla/fenix/browser/BaseBrowserFragment.kt:1048 | Dismissing removes exactly that session's entry. |
| BrowserFragment.BrowserFragment.SetFabState | app/src/main/java/org/mozilla/fenix/browser/BaseBrowserFragment.kt:1719-1746 | On a downloadable URL, NORMAL shows the download button and other states show the convert button with their text. Otherwise both are hidden, and a detached fragment changes nothing. The two buttons are never both visible. |
| BrowserFragment.BrowserFragment.RepeatingCheckTick | app/src/main/java/org/mozilla/fenix/browser/BaseBrowserFragment.kt:1753-1759 | In the CONVERTING state, or when the fragment is not added, the buttons stay as they are. Otherwise, on a downloadable URL with the downloader on, they show DOWNLOADING (convert button with the downloading text) while downloads run and NORMAL (the download button) when none run. On any other URL both buttons are hidden and the text and state stay. |
| BrowserFragment.BrowserFragment.MonitorButtonState | app/src/main/java/org/mozilla/fenix/browser/BaseBrowserFragment.kt:1766-1772 | A repeating check starts only when none runs and the URL is downloadable with the downloader enabled. |
| BrowserFragment.BrowserFragment.CancelButtonMonitor | app/src/main/java/org/mozilla/fenix/browser/BaseBrowserFragment.kt:1774-1781 | The flag is cleared and no check keeps running. |
| BrowserFragment.BrowserFragment.OnDownloadStopped | app/src/main/java/org/mozilla/fenix/browser/BaseBrowserFragment.kt:545-579 | The content type is reported iff the download's own status is COMPLETED. A completed or failed download of the current tab then saves its dialog state, shows the dialog, hides the button and stops the check. Anything else changes nothing more. |
| BrowserFragment.BrowserFragment.OnCompletedDialogDismiss | app/src/main/java/org/mozilla/fenix/browser/BaseBrowserFragment.kt:566-573 | An Instagram image download without a content type throws at `contentType!!`, and nothing changes. Otherwise an Instagram download reports the sniff success with its content type. Then the session's entry is removed and the buttons are reset to NORMAL: when the fragment is added, a downloadable URL shows the download button with the converting text and any other URL hides both; when it is not added they stay. Whether or not the fragment is added, the repeating check starts as a new job exactly when none is running, the URL is downloadable and the downloader is on. |
| BrowserFragment.BrowserFragment.RemoveSessionIfNeeded | app/src/main/java/org/mozilla/fenix/browser/BaseBrowserFragment.kt:1311-1331 | An unrestored external session finishes the activity, is removed with the one-argument `removeTab`, and handles the press. A tab with a parent is removed with `selectParentIfExists = true` and handles the press. Anything else leaves the press unhandled. |
| Fullscreen.DefaultObservation | app/src/main/java/org/mozilla/fenix/components/fullscreen/MaxFullscreenFeature.kt:152-156 | The default observation has no tab, is not in fullscreen and has cutout mode 0. |
| Fullscreen.ToObservation | app/src/main/java/org/mozilla/fenix/components/fullscreen/MaxFullscreenFeature.kt:144-150 | A missing session gives the default observation. A session gives its id, its fullscreen flag and its cutout mode. |
| Fullscreen.FullscreenSessions | app/src/main/java/org/mozilla/fenix/components/fullscreen/MaxFullscreenFeature.kt:40-44 | The sessions kept are exactly the tabs and custom tabs with a fullscreen media session. |
| Fullscreen.IsMediaSessionExist | app/src/main/java/org/mozilla/fenix/components/fullscreen/MaxFullscreenFeature.kt:158-167 | The loop finds a session with media iff one exists among the tabs and custom tabs. |
| Fullscreen.OrientationFor | app/src/main/java/org/mozilla/fenix/components/fullscreen/MaxFullscreenFeature.kt:96-110 | Portrait media gets user-portrait. Landscape media gets sensor-landscape, or unspecified in picture-in-picture on Android N and later. Unknown orientation gets user. |
| Fullscreen.OrientationUnspecifiedOnlyInPip | app/src/main/java/org/mozilla/fenix/components/fullscreen/MaxFullscreenFeature.kt:96-110 | The orientation is unspecified iff the media is landscape, the SDK is N or later, and the activity is in picture-in-picture. |
| Fullscreen.MaxFullscreenFeature.constructor | app/src/main/java/org/mozilla/fenix/components/fullscreen/MaxFullscreenFeature.kt:30 | The feature starts from the default observation. |
| Fullscreen.MaxFullscreenFeature.OnChange | app/src/main/java/org/mozilla/fenix/components/fullscreen/MaxFullscreenFeature.kt:57-67 | The fullscreen flag and the cutout mode are each reported only when they changed. The new observation is then remembered. |
| Fullscreen.MaxFullscreenFeature.OnBackPressed | app/src/main/java/org/mozilla/fenix/components/fullscreen/MaxFullscreenFeature.kt:74-83 | The press is consumed iff the remembered tab is in fullscreen, and that tab is then asked to exit. |
| Fullscreen.MaxFullscreenFeature.ProcessFullscreen | app/src/main/java/org/mozilla/fenix/components/fullscreen/MaxFullscreenFeature.kt:86-115 | Without fullscreen media the orientation is reset to user, and the observation and both logs are untouched. Otherwise the followed tab gets its media orientation and another tab leaves it alone. The tracked observation is remembered. The fullscreen flag and the cutout mode are each logged iff they differ from the remembered ones. |
| Fullscreen.MaxFullscreenFeature.ProcessDeviceSleepMode | app/src/main/java/org/mozilla/fenix/components/fullscreen/MaxFullscreenFeature.kt:117-132 | With fullscreen media the screen stays on iff it is playing. Otherwise the flag is untouched. |
| Fullscreen.MaxFullscreenFeature.OnStoreEmission | app/src/main/java/org/mozilla/fenix/components/fullscreen/MaxFullscreenFeature.kt:35-51 | With no fullscreen session, only the orientation changes, to user. Otherwise the first fullscreen session decides the screen-on flag (playing) and, when it is the followed tab, the orientation. The tracked tab's observation is remembered, and its flag and cutout mode are logged iff they changed. |
| DefaultBrowserSheets.SharedPreferences.constructor | app/src/main/java/org/mozilla/fenix/setdefaultbrowser/SetDefaultBrowserSheetDialogFragment.kt:34-90 | The preferences start unchecked, with the first-time flag set and both counters at 0. |
| DefaultBrowserSheets.NavController.constructor | app/src/main/java/org/mozilla/fenix/setdefaultbrowser/DefaultBrowserSheetDialogFragment.kt:84 | Nothing has been navigated to. |
| DefaultBrowserSheets.CapStep | app/src/main/java/org/mozilla/fenix/setdefaultbrowser/DefaultBrowserSheetDialogFragment.kt:70-92 | The sheet shows iff the count after the window reset is below the cap. Showing adds one without exceeding the cap. The window start changes only when a new window starts. |
| DefaultBrowserSheets.ShowingsWithinWindowBounded | app/src/main/java/org/mozilla/fenix/setdefaultbrowser/DefaultBrowserSheetDialogFragment.kt:70-92 | Within one window, checks show the sheet at most the remaining-count many times. |
| DefaultBrowserSheets.DailyCapHolds | app/src/main/java/org/mozilla/fenix/setdefaultbrowser/DefaultBrowserSheetDialogFragment.kt:70-92 | With a one-day window in milliseconds, the sheet shows at most the cap's number of times in the day after a first showing. |
| DefaultBrowserSheets.SetDefaultWindowIsSeconds | app/src/main/java/org/mozilla/fenix/setdefaultbrowser/SetDefaultBrowserSheetDialogFragment.kt:71-75 | With the window in seconds, two checks 100 seconds apart both show under a cap of 1. The millisecond window shows only the first. |
| DefaultBrowserSheets.SetAfterUpdatingTheme | app/src/main/java/org/mozilla/fenix/setdefaultbrowser/SetDefaultBrowserSheetDialogFragment.kt:28-32 | The after-theme-update flag is set and nothing else changes. The sibling file defines the same extension. |
| DefaultBrowserSheets.CheckToShowSetDefaultBrowserSheet | app/src/main/java/org/mozilla/fenix/setdefaultbrowser/SetDefaultBrowserSheetDialogFragment.kt:34-92 | A blocked prompt or an earlier check since cold start does nothing. Otherwise the cold-start flag is set, and a theme update only clears its flag. The very first time only clears the first-time flag. Otherwise it shows per the counter step with the seconds window as written. |
| DefaultBrowserSheets.CheckToShowDefaultBrowserSheet | app/src/main/java/org/mozilla/fenix/setdefaultbrowser/DefaultBrowserSheetDialogFragment.kt:35-94 | A blocked prompt or an earlier check since cold start does nothing. Otherwise the cold-start flag is set, and a theme update only clears its flag. Otherwise it shows and navigates per the counter step with the millisecond window. |
| DefaultBrowserSheets.FirstDefaultCheckShows | app/src/main/java/org/mozilla/fenix/setdefaultbrowser/DefaultBrowserSheetDialogFragment.kt:58-90 | On fresh preferences, the default-browser sheet shows on the first check, since its first-time skip is commented out. |
| DefaultBrowserSheets.FirstSetDefaultCheckSkips | app/src/main/java/org/mozilla/fenix/setdefaultbrowser/SetDefaultBrowserSheetDialogFragment.kt:58-64 | On fresh preferences, the set-default sheet does not show on the first check. |
| HomeNativeAd.MaxAdSettings.constructor | app/src/main/java/org/mozilla/fenix/home/homead/HomeNativeAdViewHolder.kt:61-71 | The stored first-showing time and daily count are the given values. |
| HomeNativeAd.FindHomeNativeConfig | app/src/main/java/org/mozilla/fenix/home/homead/HomeNativeAdViewHolder.kt:41-42 | There is no result iff no configuration has the home-native placement. A result is such a configuration from the list. |
| HomeNativeAd.FindHomeNativeConfigIsFirst | app/src/main/java/org/mozilla/fenix/home/homead/HomeNativeAdViewHolder.kt:41-42 | `find` returns the first home-native configuration. |
| HomeNativeAd.HomeNativeAdViewHolder.constructor | app/src/main/java/org/mozilla/fenix/home/homead/HomeNativeAdViewHolder.kt:37-38 | The holder starts with no ad, not loading, and no requests. |
| HomeNativeAd.HomeNativeAdViewHolder.AtMostOneRequestInFlight | app/src/main/java/org/mozilla/fenix/home/homead/HomeNativeAdViewHolder.kt:77-99 | At most one ad request is pending, and one is pending iff the loading flag is set. |
| HomeNativeAd.HomeNativeAdViewHolder.CheckOverDailyShowCount | app/src/main/java/org/mozilla/fenix/home/homead/HomeNativeAdViewHolder.kt:61-71 | The count resets after a day or more. The answer is whether the count has reached the configured daily limit. |
| HomeNativeAd.HomeNativeAdViewHolder.CollapseItemView | app/src/main/java/org/mozilla/fenix/home/homead/HomeNativeAdViewHolder.kt:73-75 | The item takes no space. |
| HomeNativeAd.HomeNativeAdViewHolder.LoadAd | app/src/main/java/org/mozilla/fenix/home/homead/HomeNativeAdViewHolder.kt:77-84 | A request is made only when none is loading, and the flag is set. |
| HomeNativeAd.HomeNativeAdViewHolder.OnNativeAdLoaded | app/src/main/java/org/mozilla/fenix/home/homead/HomeNativeAdViewHolder.kt:86-97 | The ad is held, loading stops and the item is shown. The showing is counted, starting a new day window when the count was 0. |
| HomeNativeAd.HomeNativeAdViewHolder.Bind | app/src/main/java/org/mozilla/fenix/home/homead/HomeNativeAdViewHolder.kt:40-59 | Without a configuration, or with an ad already held, nothing happens. Otherwise the item collapses at the daily limit and an ad is requested below it. |
| IntentProcessors.Intent.constructor | app/src/main/java/org/mozilla/fenix/qrcode/OpenQrcodeScannerIntentProcessor.kt:24-26 | An intent carries its action and extras and no component. |
| IntentProcessors.PutExtra | app/src/main/java/org/mozilla/fenix/qrcode/QrcodeIntentProcessor.kt:26-34 | `putExtra` creates the extras if needed, stores the value under the key and keeps every other extra. |
| IntentProcessors.HomeActivity.constructor | app/src/main/java/org/mozilla/fenix/qrcode/OpenDynamicLinkIntentProcessor.kt:11-12 | The activity has its package name and has started nothing. |
| IntentProcessors.DynamicLinkTarget | app/src/main/java/org/mozilla/fenix/qrcode/OpenDynamicLinkIntentProcessor.kt:21-39 | The QR-code scanner flag wins. The VPN flag routes to the VPN activity only without it. With neither flag there is no target. |
| IntentProcessors.OpenDynamicLinkIntentProcessor.constructor | app/src/main/java/org/mozilla/fenix/qrcode/OpenDynamicLinkIntentProcessor.kt:11-12 | The processor keeps its activity. |
| IntentProcessors.OpenDynamicLinkIntentProcessor.Process | app/src/main/java/org/mozilla/fenix/qrcode/OpenDynamicLinkIntentProcessor.kt:21-39 | The intent is handled iff there is a target. It then points at that activity in the app's package, which is started. Otherwise nothing changes. |
| IntentProcessors.OpenQrcodeScannerIntentProcessor.constructor | app/src/main/java/org/mozilla/fenix/qrcode/OpenQrcodeScannerIntentProcessor.kt:14-15 | The processor keeps its activity. |
| IntentProcessors.OpenQrcodeScannerIntentProcessor.Process | app/src/main/java/org/mozilla/fenix/qrcode/OpenQrcodeScannerIntentProcessor.kt:24-32 | The intent is handled iff the scanner flag is set. It then points at the scanner activity, which is started. Otherwise nothing changes. |
| IntentProcessors.ScannerProcessorsAgree | app/src/main/java/org/mozilla/fenix/qrcode/OpenQrcodeScannerIntentProcessor.kt:24-32 | The scanner processor handles an intent iff the dynamic-link processor would route it to the scanner. |
| IntentProcessors.IsQrcodeScannerLink | app/src/main/java/org/mozilla/fenix/qrcode/QrcodeIntentProcessor.kt:38-42 | A link is a scanner link iff it is one of the two maxbrowser.co scanner URLs. |
| IntentProcessors.QrcodeLinkOutcome | app/src/main/java/org/mozilla/fenix/qrcode/QrcodeIntentProcessor.kt:22-35 | The intent is handled iff the dynamic link resolves to a scanner link. The scanner extra is written, with that answer, iff some link was resolved. |
| IntentProcessors.DynamicLinkOutcome | app/src/main/java/org/mozilla/fenix/dynamiclink/DynamicLinkIntentProcessor.kt:17-32 | The intent is handled iff the dynamic link resolves to a scanner link, and only then is the scanner extra set to true. |
| IntentProcessors.LinkProcessorsAgree | app/src/main/java/org/mozilla/fenix/dynamiclink/DynamicLinkIntentProcessor.kt:17-38 | Both link processors accept the same links. They differ only in whether a non-scanner link writes a false extra. |
| IntentProcessors.AcceptedLinkRoutesToScanner | app/src/main/java/org/mozilla/fenix/qrcode/QrcodeIntentProcessor.kt:22-35 | After either link processor accepts a link, the dynamic-link router sends the intent to the scanner. A rejected link leaves no true scanner flag that was not there before. |
| IntentProcessors.QrcodeIntentProcessor.Process | app/src/main/java/org/mozilla/fenix/qrcode/QrcodeIntentProcessor.kt:22-35 | The processor returns the outcome's answer and applies its extra to the intent. |
| IntentProcessors.DynamicLinkIntentProcessor.Process | app/src/main/java/org/mozilla/fenix/dynamiclink/DynamicLinkIntentProcessor.kt:17-32 | The processor returns the outcome's answer and applies its extra to the intent. |
| IntentProcessors.ReportManager.constructor | app/src/main/java/org/mozilla/fenix/shortcut/QrcodeShortcutIntentProcessor.kt:17-33 | No report has been sent. |
| IntentProcessors.ShortcutReports | app/src/main/java/org/mozilla/fenix/shortcut/QrcodeShortcutIntentProcessor.kt:17-36 | There is one report, quick_menu_click with type qr_scan, iff the action is the open-scanner shortcut action. Otherwise there is none. |
| IntentProcessors.QrcodeShortcutIntentProcessor.Process | app/src/main/java/org/mozilla/fenix/shortcut/QrcodeShortcutIntentProcessor.kt:17-33 | The shortcut is reported and never handled, so later processors still see it. |

## Left out

- Android, Firebase, AdMob, WorkManager and Glide calls are not modelled.
  - View inflation, binding, toasts, dialogs as UI, and event reporting are
    recorded as state: a flag, a visible item, or a log of calls.
  - The reports to `ReportManager` and `AppEventReporter` that the modelled
    handlers send are logged:
    - the media page's click reports (PLAY, PAUSE, CONTINUE_DOWNLOAD,
      REMOVE_FILE, REMOVE_TASK), in `DlpMediaFragment.reports`;
    - the download content-type report and the sniff-success report, in
      `BrowserFragment.reports`;
    - the QR-code shortcut's report.
  - Reports sent from handlers outside the model are not modelled. These are
    the home-menu item clicks, the toolbar, tab and bookmark actions of
    `BaseBrowserFragment`, its download-button click and page-load reports,
    the media page's SHOW report, and the views and clicks of the
    default-browser dialogs.
- The following come from outside the model and enter as parameters:
  - the clock (`System.currentTimeMillis`);
  - file existence and file lengths;
  - the storage queries, the PDF cache repository and the account manager's readiness;
  - the SDK level and picture-in-picture mode;
  - the link of `getDynamicLink(intent)`: the value of the task's `result`,
    or the exception that reading `result` throws for an unfinished or failed
    task.
- The debounce of `clickWithDebounce` is not modelled: each call of
  `MyFileFragment.OnAllFilesClick` or `OnMediaFileClick` stands for one click
  that got through.
- Coroutines, lifecycle scopes and `Dispatchers` are not modelled. The
  repeating download-button check (`BaseBrowserFragment.kt:1748-1764`) is
  modelled one round at a time (`RepeatingCheckTick`), without its delay loop.
- Fullscreen.MaxFullscreenFeature.OnStoreEmission: the `ifChanged` filter
  in the flow pipeline is not modelled. Each call stands for one emission
  that passed it.
- Kotlin `Int` and `Long` overflow is not modelled. Counters, sizes and
  timestamps are unbounded integers. `Long.MAX_VALUE` is kept as a constant
  where `TopSite.sort` uses it.
- HomeMenu: the item objects, their icons, colours and click handlers are
  not modelled. Entries are names and `listOfNotNull` is a concatenation of
  optional slots. The Nimbus validation flag only affects a label.
- TopSites.CheckToAddStatusSaverTopSite: the tile it adds is
  `TopSitePagerViewHolder.TOP_SITE_STATUS_SAVER`, and `TopSitePagerViewHolder`
  is not part of this model. The tile is taken to be a default site with the
  status-saver URL, a title and no creation time. `WithStatusSaverProps`
  relies on its URL.
- TopSites: the URL constants live in `SupportUtils`, and `SupportUtils` is
  not part of this model. Their string values here are stand-ins. Only their
  distinctness matters to the proofs.
- IntentProcessors: the extra keys are constants of `HomeActivity`, and
  `HomeActivity` is not part of this model. They are modelled as a datatype of
  keys. The `navController` and `out` parameters are unused by the processors
  and are omitted.
- DownloadList.TextPixels: `abr2ReadableString` is not part of this model;
  its result is a parameter.
- `onBindViewHolder` and the view holders' text formatting in
  `DownloadRecyclerViewAdapter.kt` are not modelled. They only format text
  and set listeners. The progress-percentage and speed formatting uses
  floating point.
- Theme: colours and styles are named constants rather than resource ids.
  `setActivityTheme` and the attribute resolvers are not modelled, because
  they only read Android theme resources.
- MyDocuments: the `Uri` and `File` values are their string forms.
  `queryDocumentFromDocumentTree` is a parameter.
- UriQuery: the URI's query string is given already decoded, as a sequence of
  name and value pairs. Android's query parsing and percent-decoding are not
  modelled.
- BrowserFragment: only the MAX additions to `BaseBrowserFragment` are
  modelled. The upstream Fenix features it wires together (toolbar, find in
  page, prompts, sitepermissions, reader view and others) are not.

## Findings

| source | as written | input that shows it | evidently intended | confidence | as-written member | corrected member |
|---|---|---|---|---|---|---|
| app/src/main/java/org/mozilla/fenix/setdefaultbrowser/SetDefaultBrowserSheetDialogFragment.kt:71-75 | The daily window compares a difference of `currentTimeMillis` values with `TimeUnit.DAYS.toSeconds(1)`, which is 86400. The window is therefore 86.4 seconds long. | With a cap of one showing, the count is reset by 100 seconds: checks at 1,000,000 ms and 1,100,000 ms both show the sheet. | A one-day window in milliseconds (`toMillis`), as the sibling `DefaultBrowserSheetDialogFragment.kt:74` uses. Then the sheet shows at most the cap's number of times per day. | not executed | DefaultBrowserSheets.SetDefaultWindowIsSeconds | DefaultBrowserSheets.DailyCapHolds |
