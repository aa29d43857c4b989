/**
 * The PDF documents list: `MyDocumentsUseCase` gathers the PDFs of the
 * storage (a granted document tree on Android 10 and later, a fixed set of
 * directories before), adds cached PDFs whose source is not listed and
 * whose cache file exists, and sorts newest first; `MyDocumentsViewModel`
 * does the same gathering for the library page and publishes a UI state.
 * The storage queries, the PDF cache repository and the cache files are
 * inputs.
 */
module MyDocuments {
  import opened Optional
  import opened SeqUtil

  /** `Build.VERSION_CODES.Q`. */
  const VERSION_CODES_Q: int := 29

  const PDF_MIME_TYPE: string := "application/pdf"

  /** An Android `Uri`, known by its string form. */
  datatype Uri = Uri(text: string)

  /** A storage query result (`QueryData`). */
  datatype QueryData = QueryData(sourceFileName: string, sourceUri: Uri, mimeType: string, size: int, lastModified: int)

  /** `MyDocumentsItem`. */
  datatype MyDocumentsItem = MyDocumentsItem(fileName: string, uri: Uri, mimeType: string, size: int, lastModified: int)

  /** A PDF cache entry: the source it was opened from and the md5 naming its cache file. */
  datatype PdfCache = PdfCache(sourceFileName: string, sourceUri: string, md5: string, createdDate: int)

  /** What `getPdfCacheFile` returns for an md5: the file's uri, whether it exists, its length. */
  datatype CacheFile = CacheFile(uri: Uri, exists_: bool, length: int)

  /** The directories of the external storage that the path query reads. */
  datatype Storage = Storage(
    storageAbsolutePath: string,
    downloadsAbsolutePath: string,
    documentsAbsolutePath: string,
    storageText: string)

  /** The item for a query result: every field copied. */
  function FromQueryData(q: QueryData): (item: MyDocumentsItem)
    ensures item.fileName == q.sourceFileName && item.uri == q.sourceUri && item.mimeType == q.mimeType
    ensures item.size == q.size && item.lastModified == q.lastModified
  {
    MyDocumentsItem(q.sourceFileName, q.sourceUri, q.mimeType, q.size, q.lastModified)
  }

  /** `sortedByDescending { it.lastModified }` sorts by the negated time. */
  function NewestFirstKey(item: MyDocumentsItem): int {
    -item.lastModified
  }

  // ---------------------------------------------------------------------
  // The cache entries
  // ---------------------------------------------------------------------

  /** Some listed item's uri, as a string, is the cache entry's source. */
  predicate Listed(items: seq<MyDocumentsItem>, c: PdfCache) {
    exists i | 0 <= i < |items| :: items[i].uri.text == c.sourceUri
  }

  /** A cache entry survives both filters. */
  predicate KeepCache(items: seq<MyDocumentsItem>, c: PdfCache, cacheFile: string -> CacheFile) {
    !Listed(items, c) && cacheFile(c.md5).exists_
  }

  /** The item for a surviving cache entry. */
  function CacheItem(c: PdfCache, cacheFile: string -> CacheFile): (item: MyDocumentsItem)
    ensures item.fileName == c.sourceFileName && item.uri == cacheFile(c.md5).uri
    ensures item.mimeType == PDF_MIME_TYPE && item.size == cacheFile(c.md5).length
    ensures item.lastModified == c.createdDate
  {
    MyDocumentsItem(c.sourceFileName, cacheFile(c.md5).uri, PDF_MIME_TYPE, cacheFile(c.md5).length, c.createdDate)
  }

  /** The items of the surviving cache entries, in cache order. */
  function CacheItems(items: seq<MyDocumentsItem>, caches: seq<PdfCache>, cacheFile: string -> CacheFile): seq<MyDocumentsItem> {
    if caches == [] then []
    else
      var c := caches[|caches| - 1];
      CacheItems(items, caches[..|caches| - 1], cacheFile) +
        (if KeepCache(items, c, cacheFile) then [CacheItem(c, cacheFile)] else [])
  }

  /**
   * The cache contributes one item per surviving entry and nothing else: an
   * entry whose source is listed, or whose cache file is missing, is dropped.
   */
  lemma {:induction false} CacheItemsMembers(items: seq<MyDocumentsItem>, caches: seq<PdfCache>, cacheFile: string -> CacheFile)
    ensures |CacheItems(items, caches, cacheFile)| <= |caches|
    ensures forall x :: x in CacheItems(items, caches, cacheFile) <==>
      exists c :: c in caches && KeepCache(items, c, cacheFile) && x == CacheItem(c, cacheFile)
  {
    if caches != [] {
      var init := caches[..|caches| - 1];
      var c := caches[|caches| - 1];
      CacheItemsMembers(items, init, cacheFile);
      assert caches == init + [c];
      forall x ensures x in CacheItems(items, caches, cacheFile) <==>
        exists c' :: c' in caches && KeepCache(items, c', cacheFile) && x == CacheItem(c', cacheFile)
      {
        if x in CacheItems(items, init, cacheFile) {
          var c' :| c' in init && KeepCache(items, c', cacheFile) && x == CacheItem(c', cacheFile);
          assert c' in caches;
        }
      }
    }
  }

  /** The inner loop of the cache filter: does a listed item come from this entry's source? */
  method HasFound(items: seq<MyDocumentsItem>, pdfCache: PdfCache) returns (hasFound: bool)
    ensures hasFound <==> Listed(items, pdfCache)
  {
    hasFound := false;
    var k := 0;
    while k < |items|
      invariant 0 <= k <= |items|
      invariant hasFound <==> exists i | 0 <= i < k :: items[i].uri.text == pdfCache.sourceUri
    {
      if pdfCache.sourceUri == items[k].uri.text {
        hasFound := true;
      }
      k := k + 1;
    }
  }

  /** `queryDocumentCache`: the items of the cache entries that survive, in cache order. */
  method QueryDocumentCache(items: seq<MyDocumentsItem>, caches: seq<PdfCache>, cacheFile: string -> CacheFile)
    returns (r: seq<MyDocumentsItem>)
    ensures r == CacheItems(items, caches, cacheFile)
  {
    r := [];
    var k := 0;
    while k < |caches|
      invariant 0 <= k <= |caches|
      invariant r == CacheItems(items, caches[..k], cacheFile)
    {
      var pdfCache := caches[k];
      assert caches[..k + 1][..k] == caches[..k];
      var hasFound := HasFound(items, pdfCache);
      if !hasFound && cacheFile(pdfCache.md5).exists_ {
        r := r + [CacheItem(pdfCache, cacheFile)];
      }
      k := k + 1;
    }
    assert caches[..k] == caches;
  }

  // ---------------------------------------------------------------------
  // The path query (before Android 10)
  // ---------------------------------------------------------------------

  /** The WhatsApp documents directory of one WhatsApp variant. */
  function WhatsAppPath(storageText: string, name: string): string {
    storageText + "/" + name + "/Media/" + name + " Documents"
  }

  function WhatsAppPaths(storageText: string, names: seq<string>): (r: seq<string>)
    ensures |r| == |names|
    ensures forall i :: 0 <= i < |names| ==> r[i] == WhatsAppPath(storageText, names[i])
  {
    if names == [] then []
    else WhatsAppPaths(storageText, names[..|names| - 1]) + [WhatsAppPath(storageText, names[|names| - 1])]
  }

  /**
   * The directories queried: the storage root, Downloads and Documents, then
   * one WhatsApp documents directory per name, in that order.
   */
  function PathList(storage: Storage, names: seq<string>): (r: seq<string>)
    ensures |r| == 3 + |names|
    ensures r[0] == storage.storageAbsolutePath && r[1] == storage.downloadsAbsolutePath
    ensures r[2] == storage.documentsAbsolutePath
    ensures forall i :: 0 <= i < |names| ==> r[3 + i] == WhatsAppPath(storage.storageText, names[i])
  {
    [storage.storageAbsolutePath, storage.downloadsAbsolutePath, storage.documentsAbsolutePath] +
      WhatsAppPaths(storage.storageText, names)
  }

  /** The results of querying every path, path by path. */
  function QueryAll(paths: seq<string>, query: string -> seq<QueryData>): seq<QueryData> {
    if paths == [] then []
    else QueryAll(paths[..|paths| - 1], query) + query(paths[|paths| - 1])
  }

  function SourceUriText(q: QueryData): string {
    q.sourceUri.text
  }

  function ItemUriText(item: MyDocumentsItem): string {
    item.uri.text
  }

  /** `queryDocumentFromPath`: the first result per source uri, as items. */
  function PathItems(storage: Storage, names: seq<string>, query: string -> seq<QueryData>): seq<MyDocumentsItem> {
    Map(DistinctBy(QueryAll(PathList(storage, names), query), SourceUriText), FromQueryData)
  }

  /**
   * The path results hold no two items with the same source uri, and every
   * source uri some path returned is represented.
   */
  lemma PathItemsDistinct(storage: Storage, names: seq<string>, query: string -> seq<QueryData>)
    ensures var r := PathItems(storage, names, query);
      && DistinctKeys(r, ItemUriText)
      && (forall q :: q in QueryAll(PathList(storage, names), query) ==>
            exists i :: 0 <= i < |r| && r[i].uri.text == q.sourceUri.text)
  {
    var all := QueryAll(PathList(storage, names), query);
    DistinctByProps(all, SourceUriText);
  }

  /**
   * `queryDocumentFromPath`: builds the path list, queries the paths in
   * order, keeps the first result per source uri and turns them into items.
   */
  method QueryDocumentFromPath(storage: Storage, names: seq<string>, query: string -> seq<QueryData>)
    returns (r: seq<MyDocumentsItem>)
    ensures r == PathItems(storage, names, query)
  {
    var pathList := BuildPathList(storage, names);
    var queryDataList := QueryPaths(pathList, query);
    r := Map(DistinctBy(queryDataList, SourceUriText), FromQueryData);
  }

  /** The three fixed folders, then one WhatsApp folder per name, appended in a loop. */
  method BuildPathList(storage: Storage, names: seq<string>) returns (pathList: seq<string>)
    ensures pathList == PathList(storage, names)
  {
    pathList := [storage.storageAbsolutePath, storage.downloadsAbsolutePath, storage.documentsAbsolutePath];
    var n := 0;
    while n < |names|
      invariant 0 <= n <= |names|
      invariant pathList == PathList(storage, names[..n])
    {
      assert names[..n + 1][..n] == names[..n];
      pathList := pathList + [WhatsAppPath(storage.storageText, names[n])];
      n := n + 1;
    }
    assert names[..n] == names;
  }

  /** The `forEach` over the path list: each path's results appended in order. */
  method QueryPaths(pathList: seq<string>, query: string -> seq<QueryData>) returns (queryDataList: seq<QueryData>)
    ensures queryDataList == QueryAll(pathList, query)
  {
    queryDataList := [];
    var k := 0;
    while k < |pathList|
      invariant 0 <= k <= |pathList|
      invariant queryDataList == QueryAll(pathList[..k], query)
    {
      assert pathList[..k + 1][..k] == pathList[..k];
      queryDataList := queryDataList + query(pathList[k]);
      k := k + 1;
    }
    assert pathList[..k] == pathList;
  }

  // ---------------------------------------------------------------------
  // queryDocument
  // ---------------------------------------------------------------------

  /** The storage items before the cache is merged in. */
  function PrimaryItems(
    sdkInt: int, uriString: string, storage: Storage, names: seq<string>,
    treeQuery: string -> seq<QueryData>, pathQuery: string -> seq<QueryData>): seq<MyDocumentsItem>
  {
    if sdkInt >= VERSION_CODES_Q then Map(treeQuery(uriString), FromQueryData)
    else PathItems(storage, names, pathQuery)
  }

  /** The merged list sorted newest first. */
  function MergedSorted(primary: seq<MyDocumentsItem>, caches: seq<PdfCache>, cacheFile: string -> CacheFile)
    : seq<MyDocumentsItem>
  {
    SortBy(primary + CacheItems(primary, caches, cacheFile), NewestFirstKey)
  }

  /**
   * The merged list is newest first, holds exactly the primary items and
   * the surviving cache items, and so has their total size.
   */
  lemma MergedSortedProps(primary: seq<MyDocumentsItem>, caches: seq<PdfCache>, cacheFile: string -> CacheFile)
    ensures var r := MergedSorted(primary, caches, cacheFile);
      && |r| == |primary| + |CacheItems(primary, caches, cacheFile)|
      && multiset(r) == multiset(primary) + multiset(CacheItems(primary, caches, cacheFile))
      && (forall i, j :: 0 <= i < j < |r| ==> r[i].lastModified >= r[j].lastModified)
  {
    var all := primary + CacheItems(primary, caches, cacheFile);
    SortByPermutes(all, NewestFirstKey);
    SortBySorted(all, NewestFirstKey);
    var r := MergedSorted(primary, caches, cacheFile);
    forall i, j | 0 <= i < j < |r| ensures r[i].lastModified >= r[j].lastModified {
      assert NewestFirstKey(r[i]) <= NewestFirstKey(r[j]);
    }
  }

  /**
   * `queryDocument`: the document tree on Android 10 and later, the fixed
   * paths before, then the surviving cache entries, sorted newest first.
   */
  method QueryDocument(
    sdkInt: int, uriString: string, storage: Storage, names: seq<string>,
    treeQuery: string -> seq<QueryData>, pathQuery: string -> seq<QueryData>,
    caches: seq<PdfCache>, cacheFile: string -> CacheFile)
    returns (result: seq<MyDocumentsItem>)
    ensures result == MergedSorted(PrimaryItems(sdkInt, uriString, storage, names, treeQuery, pathQuery), caches, cacheFile)
  {
    var items: seq<MyDocumentsItem> := [];
    if sdkInt >= VERSION_CODES_Q {
      items := items + Map(treeQuery(uriString), FromQueryData);
      assert items == Map(treeQuery(uriString), FromQueryData);
    } else {
      var fromPath := QueryDocumentFromPath(storage, names, pathQuery);
      items := items + fromPath;
      assert items == fromPath;
    }
    var cached := QueryDocumentCache(items, caches, cacheFile);
    items := items + cached;
    result := SortBy(items, NewestFirstKey);
  }

  // ---------------------------------------------------------------------
  // The view model
  // ---------------------------------------------------------------------

  /** `MyDocumentsUiState`. */
  datatype UiState = NoPermission | Loading | Empty | Success(items: seq<MyDocumentsItem>)

  /**
   * Whether the documents may be read: on Android 10 and later iff a tree
   * uri was stored, before that iff the storage permissions are granted.
   */
  function HasPermission(sdkInt: int, storedUri: string, permissionsGranted: bool): (r: bool)
    ensures sdkInt >= VERSION_CODES_Q ==> (r <==> storedUri != "")
    ensures sdkInt < VERSION_CODES_Q ==> (r <==> permissionsGranted)
  {
    if sdkInt >= VERSION_CODES_Q then storedUri != "" else permissionsGranted
  }

  /** The tree the view model queries: the stored uri, or the root directory before Android 10. */
  function TreeUriString(sdkInt: int, storedUri: string, rootDirectoryUri: string): string {
    if sdkInt >= VERSION_CODES_Q then storedUri else rootDirectoryUri
  }

  /** The state `queryDocuments` ends in. */
  function FinalState(hasPermission: bool, result: seq<MyDocumentsItem>): (s: UiState)
    ensures !hasPermission <==> s == NoPermission
    ensures hasPermission && result == [] <==> s == Empty
    ensures s.Success? ==> hasPermission && s.items == result && result != []
  {
    if !hasPermission then NoPermission
    else if result == [] then Empty
    else Success(result)
  }

  class MyDocumentsViewModel {
    var uiState: UiState
    /** Every value assigned to the state flow, in order. */
    var emitted: seq<UiState>

    constructor ()
      ensures uiState == NoPermission && emitted == []
    {
      uiState := NoPermission;
      emitted := [];
    }

    /**
     * `queryDocuments`: publishes Loading first; then NoPermission without
     * permission, and otherwise Empty or Success with the tree items and
     * surviving cache items sorted newest first.
     */
    method QueryDocuments(
      sdkInt: int, storedUri: string, rootDirectoryUri: string, permissionsGranted: bool,
      treeQuery: string -> seq<QueryData>, caches: seq<PdfCache>, cacheFile: string -> CacheFile)
      modifies this
      ensures var tree := Map(treeQuery(TreeUriString(sdkInt, storedUri, rootDirectoryUri)), FromQueryData);
        uiState == FinalState(HasPermission(sdkInt, storedUri, permissionsGranted), MergedSorted(tree, caches, cacheFile))
      ensures emitted == old(emitted) + [Loading, uiState]
    {
      uiState := Loading;
      emitted := emitted + [Loading];
      var uriString := if sdkInt >= VERSION_CODES_Q then storedUri else rootDirectoryUri;
      var hasPermission := if sdkInt >= VERSION_CODES_Q then uriString != "" else permissionsGranted;
      if hasPermission {
        var items: seq<MyDocumentsItem> := [];
        items := items + Map(treeQuery(uriString), FromQueryData);
        assert items == Map(treeQuery(uriString), FromQueryData);
        var cached := QueryDocumentCache(items, caches, cacheFile);
        items := items + cached;
        var result := SortBy(items, NewestFirstKey);
        if result == [] {
          uiState := Empty;
        } else {
          uiState := Success(result);
        }
      } else {
        uiState := NoPermission;
      }
      emitted := emitted + [uiState];
    }
  }

  /**
   * A Success list is non-empty, newest first, and holds exactly the tree
   * items and the surviving cache entries' items.
   */
  lemma SuccessListProps(hasPermission: bool, tree: seq<MyDocumentsItem>, caches: seq<PdfCache>, cacheFile: string -> CacheFile)
    ensures var s := FinalState(hasPermission, MergedSorted(tree, caches, cacheFile));
      s.Success? ==>
        && s.items != []
        && (forall i, j :: 0 <= i < j < |s.items| ==> s.items[i].lastModified >= s.items[j].lastModified)
        && multiset(s.items) == multiset(tree) + multiset(CacheItems(tree, caches, cacheFile))
    ensures FinalState(hasPermission, MergedSorted(tree, caches, cacheFile)) == Empty <==>
      hasPermission && tree == [] && CacheItems(tree, caches, cacheFile) == []
  {
    MergedSortedProps(tree, caches, cacheFile);
  }
}
