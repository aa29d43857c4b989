/**
 * Extension functions on the top sites shown on the home screen: the type
 * name of a site, the ordering of the top-site row, and the insertion of the
 * status-saver tile.
 */
module TopSites {
  import opened Optional
  import opened SeqUtil

  /** The four kinds of `TopSite`. */
  datatype TopSiteKind = Default | Frecent | Pinned | Provided

  datatype TopSite = TopSite(
    kind: TopSiteKind,
    id: Option<int>,
    title: Option<string>,
    url: string,
    createdAt: Option<int>)

  // URLs of the built-in default sites. Their values are defined outside
  // this model (SupportUtils is not part of this model); the stand-ins
  // below are distinct, which is all the ordering relies on.
  const MAX_STATUS_SAVER_URL: string := "max-status-saver"
  const GOOGLE_URL: string := "https://www.google.com/"
  const WIKIPEDIA_URL: string := "https://www.wikipedia.org/"
  const FACEBOOK_URL: string := "https://www.facebook.com/"
  const INSTAGRAM_URL: string := "https://www.instagram.com/"
  const TWITTER_URL: string := "https://twitter.com/"
  const YOUTUBE_URL: string := "https://www.youtube.com/"

  /** Kotlin `Long.MAX_VALUE`, the key of a site without a creation time. */
  const LONG_MAX_VALUE: int := 0x7FFF_FFFF_FFFF_FFFF

  /**
   * The status-saver tile that is added in front of the row. It is a
   * constant of `TopSitePagerViewHolder`, which is not part of this model;
   * it is taken to be a default site with the status-saver URL.
   */
  const TOP_SITE_STATUS_SAVER: TopSite :=
    TopSite(Default, None, Some("Status Saver"), MAX_STATUS_SAVER_URL, None)

  /** The type name of a top site. */
  function Name(site: TopSite): (r: string)
    ensures r in {"DEFAULT", "FRECENT", "PINNED", "PROVIDED"}
    ensures r == "DEFAULT" <==> site.kind == Default
  {
    match site.kind
    case Default => "DEFAULT"
    case Frecent => "FRECENT"
    case Pinned => "PINNED"
    case Provided => "PROVIDED"
  }

  /** Different kinds never share a type name. */
  lemma NameDistinguishesKinds(a: TopSite, b: TopSite)
    ensures Name(a) == Name(b) <==> a.kind == b.kind
  {
    match a.kind
    case Default =>
    case Frecent => assert Name(a)[0] == 'F';
    case Pinned => assert Name(a)[1] == 'I';
    case Provided => assert Name(a)[1] == 'R';
  }

  /** The position of a built-in default site in the row. */
  function DefaultRank(url: string): (r: int)
    ensures 0 <= r <= 7
    ensures r == 0 <==> url == MAX_STATUS_SAVER_URL
    ensures r == 7 <==> url !in {MAX_STATUS_SAVER_URL, GOOGLE_URL, WIKIPEDIA_URL,
                                 FACEBOOK_URL, INSTAGRAM_URL, TWITTER_URL, YOUTUBE_URL}
  {
    if url == MAX_STATUS_SAVER_URL then 0
    else if url == GOOGLE_URL then 1
    else if url == WIKIPEDIA_URL then 2
    else if url == FACEBOOK_URL then 3
    else if url == INSTAGRAM_URL then 4
    else if url == TWITTER_URL then 5
    else if url == YOUTUBE_URL then 6
    else 7
  }

  /** The key `sort` orders by. */
  function SortKey(site: TopSite): int {
    if site.kind == Default then DefaultRank(site.url)
    else site.createdAt.GetOr(LONG_MAX_VALUE)
  }

  /** `List<TopSite>.sort()`: a stable sort by `SortKey`. */
  function Sort(sites: seq<TopSite>): seq<TopSite> {
    SortBy(sites, SortKey)
  }

  /**
   * `sort` returns a permutation of its input whose keys do not decrease,
   * and sites with equal keys keep their input order.
   */
  lemma SortSpec(sites: seq<TopSite>)
    ensures multiset(Sort(sites)) == multiset(sites)
    ensures |Sort(sites)| == |sites|
    ensures forall i, j :: 0 <= i < j < |Sort(sites)| ==>
              SortKey(Sort(sites)[i]) <= SortKey(Sort(sites)[j])
    ensures forall k :: WithKey(Sort(sites), SortKey, k) == WithKey(sites, SortKey, k)
  {
    SortByPermutes(sites, SortKey);
    SortBySorted(sites, SortKey);
    forall k ensures WithKey(Sort(sites), SortKey, k) == WithKey(sites, SortKey, k) {
      SortByStable(sites, SortKey, k);
    }
  }

  /**
   * When the row holds a default status-saver site and no other site has a
   * key of 0 or below (creation times are positive), the sorted row starts
   * with a default status-saver site.
   */
  lemma StatusSaverSortsFirst(sites: seq<TopSite>)
    requires exists i :: 0 <= i < |sites| && sites[i].kind == Default
                                          && sites[i].url == MAX_STATUS_SAVER_URL
    requires forall i :: 0 <= i < |sites| && sites[i].kind != Default ==>
                           sites[i].createdAt.GetOr(LONG_MAX_VALUE) > 0
    ensures |Sort(sites)| > 0
    ensures Sort(sites)[0].kind == Default && Sort(sites)[0].url == MAX_STATUS_SAVER_URL
  {
    SortSpec(sites);
    var s := Sort(sites);
    var i :| 0 <= i < |sites| && sites[i].kind == Default && sites[i].url == MAX_STATUS_SAVER_URL;
    assert sites[i] in multiset(s);
    var j :| 0 <= j < |s| && s[j] == sites[i];
    assert SortKey(s[0]) <= SortKey(s[j]) == 0;
    assert s[0] in multiset(sites);
  }

  /**
   * The order the doc comment of `sort` describes, Google first, holds only
   * when the row has no default status-saver site: then, with the other
   * sites created after time 1, a default Google site comes first.
   */
  lemma GoogleFirstWithoutStatusSaver(sites: seq<TopSite>)
    requires exists i :: 0 <= i < |sites| && sites[i].kind == Default && sites[i].url == GOOGLE_URL
    requires forall i :: 0 <= i < |sites| && sites[i].kind == Default ==>
                           sites[i].url != MAX_STATUS_SAVER_URL
    requires forall i :: 0 <= i < |sites| && sites[i].kind != Default ==>
                           sites[i].createdAt.GetOr(LONG_MAX_VALUE) > 1
    ensures |Sort(sites)| > 0
    ensures Sort(sites)[0].kind == Default && Sort(sites)[0].url == GOOGLE_URL
  {
    SortSpec(sites);
    var s := Sort(sites);
    var i :| 0 <= i < |sites| && sites[i].kind == Default && sites[i].url == GOOGLE_URL;
    assert sites[i] in multiset(s);
    var j :| 0 <= j < |s| && s[j] == sites[i];
    assert SortKey(s[0]) <= SortKey(s[j]) == 1;
    assert s[0] in multiset(sites);
    var k :| 0 <= k < |sites| && sites[k] == s[0];
  }

  /** The row after `checkToAddStatusSaverTopSite`. */
  function WithStatusSaver(sites: seq<TopSite>): seq<TopSite> {
    if exists i :: 0 <= i < |sites| && sites[i].url == MAX_STATUS_SAVER_URL
    then sites
    else [TOP_SITE_STATUS_SAVER] + sites
  }

  /**
   * `checkToAddStatusSaverTopSite`: scans a copy of the list for the
   * status-saver URL and inserts the constant tile at index 0 when it is
   * missing. The input is a value, so it is never changed.
   */
  method CheckToAddStatusSaverTopSite(sites: seq<TopSite>) returns (result: seq<TopSite>)
    ensures result == WithStatusSaver(sites)
    ensures (exists i :: 0 <= i < |sites| && sites[i].url == MAX_STATUS_SAVER_URL) ==> result == sites
    ensures (forall i :: 0 <= i < |sites| ==> sites[i].url != MAX_STATUS_SAVER_URL) ==>
              result == [TOP_SITE_STATUS_SAVER] + sites
  {
    result := sites;
    var has := false;
    var k := 0;
    while k < |result|
      invariant 0 <= k <= |result| && result == sites
      invariant has <==> exists i :: 0 <= i < k && sites[i].url == MAX_STATUS_SAVER_URL
    {
      if result[k].url == MAX_STATUS_SAVER_URL {
        has := true;
      }
      k := k + 1;
    }
    if !has {
      result := [TOP_SITE_STATUS_SAVER] + result;
    }
  }

  /**
   * After the check the row always holds the status-saver URL, the input
   * follows unchanged, and a second check changes nothing.
   */
  lemma {:induction false} WithStatusSaverProps(sites: seq<TopSite>)
    ensures exists i :: 0 <= i < |WithStatusSaver(sites)| &&
                        WithStatusSaver(sites)[i].url == MAX_STATUS_SAVER_URL
    ensures |WithStatusSaver(sites)| - |sites| in {0, 1}
    ensures WithStatusSaver(sites)[|WithStatusSaver(sites)| - |sites|..] == sites
    ensures WithStatusSaver(WithStatusSaver(sites)) == WithStatusSaver(sites)
  {
    var r := WithStatusSaver(sites);
    if !(exists i :: 0 <= i < |sites| && sites[i].url == MAX_STATUS_SAVER_URL) {
      assert r[0].url == MAX_STATUS_SAVER_URL;
      assert r[1..] == sites;
    }
  }
}
