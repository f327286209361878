/** The feed filter (older revision): the pattern is always compiled and tested, even
    when empty, and the card's parent is always the element hidden. */
module HideSlopPage {
  import opened Js
  import Dom
  import Duration
  import Content
  import opened Extractor
  import opened HideSlop

  predicate HidesInPage(v: VideoInfo, minDuration: Option<int>, pattern: string, test: RegexTest) {
    test(pattern, v.title) || DurationRuleHides(v, minDuration)
  }

  function PageRule(minDuration: Option<int>, pattern: string, test: RegexTest): VideoInfo -> bool {
    v => HidesInPage(v, minDuration, pattern, test)
  }

  /** Hides the matching cards' parents; a NaN minimum hides nothing; `removedCount`
      counts the cards hidden, and only their parents' `display` changes. */
  method HideSlopFeedPage(feedVideos: seq<VideoInfo>, minDurationString: string, badTitleRegexString: string,
                          test: RegexTest)
    returns (removedCount: nat)
    requires HasTargets(feedVideos, Content.Feed)
    modifies Targets(feedVideos, Content.Feed)
    ensures var minDuration := Duration.Seconds(minDurationString);
      removedCount == if minDuration.None? then 0
                      else CountHidden(feedVideos, PageRule(minDuration, badTitleRegexString, test))
    ensures forall d :: d in Targets(feedVideos, Content.Feed) ==>
      d.display == if Duration.Seconds(minDurationString).Some?
                      && HiddenBy(d, feedVideos, PageRule(Duration.Seconds(minDurationString), badTitleRegexString, test), Content.Feed)
                   then Dom.Hidden else old(d.display)
  {
    var minDuration := Duration.ParseDurationSeconds(minDurationString);
    removedCount := 0;
    if minDuration.None? {
      return;
    }
    var rule := PageRule(minDuration, badTitleRegexString, test);
    assert feedVideos[..0] == [];
    for i := 0 to |feedVideos|
      invariant HasTargets(feedVideos[..i], Content.Feed)
      invariant removedCount == CountHidden(feedVideos[..i], rule)
      invariant forall d :: d in Targets(feedVideos, Content.Feed) ==>
        d.display == if HiddenBy(d, feedVideos[..i], rule, Content.Feed) then Dom.Hidden else old(d.display)
    {
      var video := feedVideos[i];
      var parent := video.element.parent;
      assert parent == Target(video, Content.Feed) && parent in Targets(feedVideos, Content.Feed);
      forall d | d in Targets(feedVideos, Content.Feed) {
        HiddenByStep(d, feedVideos, i, rule, Content.Feed);
      }
      assert rule(video) <==> (test(badTitleRegexString, video.title)) || DurationRuleHides(video, minDuration);

      if test(badTitleRegexString, video.title) {
        Dom.HideDiv(parent);
        removedCount := removedCount + 1;
        continue;
      }

      if video.duration.None? || video.duration.value == "" {
        continue;
      }
      var seconds := Duration.ParseDurationSeconds(video.duration.value);
      if Less(seconds, minDuration) {
        Dom.HideDiv(parent);
        removedCount := removedCount + 1;
      }
    }
    assert feedVideos[..|feedVideos|] == feedVideos;
  }

  /** A pattern that matches every title (as the empty pattern does) hides every card. */
  lemma EmptyPatternHidesAll(videos: seq<VideoInfo>, minDuration: Option<int>, pattern: string, test: RegexTest)
    requires forall title :: test(pattern, title)
    ensures CountHidden(videos, PageRule(minDuration, pattern, test)) == |videos|
  {
    CountHiddenBounds(videos, PageRule(minDuration, pattern, test));
  }

  /** For a non-empty pattern on a feed page the two revisions hide the same cards,
      count the same number and hide the same elements; for the empty pattern this
      revision hides by the title rule as well. */
  lemma RevisionsAgree(videos: seq<VideoInfo>, minDuration: Option<int>, pattern: string, test: RegexTest, d: Dom.Div)
    requires pattern != ""
    requires HasTargets(videos, Content.Feed)
    ensures forall v :: HidesInPage(v, minDuration, pattern, test) <==> Hides(v, minDuration, pattern, test)
    ensures CountHidden(videos, PageRule(minDuration, pattern, test)) == CountHidden(videos, Rule(minDuration, pattern, test))
    ensures HiddenBy(d, videos, PageRule(minDuration, pattern, test), Content.Feed)
        <==> HiddenBy(d, videos, Rule(minDuration, pattern, test), Content.Feed)
  {
    CountHiddenAgrees(videos, PageRule(minDuration, pattern, test), Rule(minDuration, pattern, test));
  }
}
