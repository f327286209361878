/** The content script's entry point: it runs only on Invidious sites, classifies
    the page by its pathname, and asks the background script for the watched state
    of the page's videos when that feature is on. */
module Content {
  import opened Js
  import Strings
  import Extractor
  import Background

  datatype PageType = WatchVideo | Feed | Unknown

  const SiteSuffix := "Invidious"

  /** The `og:site_name` meta content, when present, ends with "Invidious". */
  predicate IsInvidious(siteName: Option<string>) {
    siteName.Some? && Strings.EndsWith(siteName.value, SiteSuffix)
  }

  lemma IsInvidiousIff(siteName: Option<string>)
    ensures IsInvidious(siteName) <==> exists front :: siteName == Some(front + SiteSuffix)
  {
    if siteName.Some? {
      Strings.EndsWithIff(siteName.value, SiteSuffix);
    }
  }

  /** `/watch` is a watch page; a `/feed` or `/channel/` prefix a feed; anything else unknown. */
  function Classify(pathname: string): (t: PageType)
    ensures t == WatchVideo <==> pathname == "/watch"
    ensures t == Feed <==>
      pathname != "/watch" && (Strings.StartsWith(pathname, "/feed") || Strings.StartsWith(pathname, "/channel/"))
  {
    if pathname == "/watch" then WatchVideo
    else if Strings.StartsWith(pathname, "/feed") || Strings.StartsWith(pathname, "/channel/") then Feed
    else Unknown
  }

  /** Every page the extractor reads is a classified page, but channel pages are feeds to
      the content script while the extractor returns no cards for them. */
  lemma ClassificationAndExtraction(pathname: string)
    ensures Extractor.StrategyFor(pathname).Some? ==> Classify(pathname) != Unknown
    ensures Extractor.StrategyFor(pathname) == Some(Extractor.WatchNext) <==> Classify(pathname) == WatchVideo
    ensures Strings.StartsWith(pathname, "/channel/") ==>
      Classify(pathname) == Feed && Extractor.StrategyFor(pathname).None?
  {
    if Strings.StartsWith(pathname, "/channel/") {
      assert pathname[1] == "/channel/"[1] == 'c';
      assert pathname[..5][1] != "/feed"[1];
    }
  }

  /** What one run of the content script does on a page. */
  datatype Injection = Injection(pageType: PageType, watchPageHandled: bool, lookups: seq<Background.BackgroundRequest>)

  /** The script's decisions: nothing on a non-Invidious site; otherwise the page type,
      whether the watch-page button is set up, and one `isWatched` request per feed video
      (in order) when the watched feature is enabled. */
  method InjectScript(siteName: Option<string>, pathname: string, watchedEnabled: bool, feedVideoIds: seq<string>)
    returns (plan: Option<Injection>)
    ensures plan.None? <==> !IsInvidious(siteName)
    ensures plan.Some? ==>
      && plan.value.pageType == Classify(pathname)
      && (plan.value.watchPageHandled <==> Classify(pathname) == WatchVideo && watchedEnabled)
      && |plan.value.lookups| == (if watchedEnabled then |feedVideoIds| else 0)
      && forall i :: 0 <= i < |plan.value.lookups| ==> plan.value.lookups[i] == Background.IsWatchedRequest(feedVideoIds[i])
  {
    if !IsInvidious(siteName) {
      return None;
    }
    var pageType := Classify(pathname);
    var watchPageHandled := pageType == WatchVideo && watchedEnabled;
    var lookups: seq<Background.BackgroundRequest> := [];
    if watchedEnabled {
      for i := 0 to |feedVideoIds|
        invariant |lookups| == i
        invariant forall k :: 0 <= k < i ==> lookups[k] == Background.IsWatchedRequest(feedVideoIds[k])
      {
        lookups := lookups + [Background.IsWatchedRequest(feedVideoIds[i])];
      }
    }
    plan := Some(Injection(pageType, watchPageHandled, lookups));
  }
}
