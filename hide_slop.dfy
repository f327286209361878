/** The feed filter (current revision): hides cards whose title matches a pattern
    or whose duration is below a minimum, by setting `display` to "none" on the card
    (or, on feed pages, on its parent). */
module HideSlop {
  import opened Js
  import Dom
  import Duration
  import Content
  import opened Extractor

  /** `new RegExp(pattern).test(text)`; the regular-expression engine is an input. */
  type RegexTest = (string, string) -> bool

  /** The title rule applies only to a non-empty pattern. */
  predicate TitleRuleHides(v: VideoInfo, pattern: string, test: RegexTest) {
    |pattern| > 0 && test(pattern, v.title)
  }

  /** A present, non-empty duration strictly below the minimum; NaN on either side never is. */
  predicate DurationRuleHides(v: VideoInfo, minDuration: Option<int>) {
    v.duration.Some? && v.duration.value != "" && Less(Duration.Seconds(v.duration.value), minDuration)
  }

  predicate Hides(v: VideoInfo, minDuration: Option<int>, pattern: string, test: RegexTest) {
    TitleRuleHides(v, pattern, test) || DurationRuleHides(v, minDuration)
  }

  function Rule(minDuration: Option<int>, pattern: string, test: RegexTest): VideoInfo -> bool {
    v => Hides(v, minDuration, pattern, test)
  }

  // ---------------------------------------------------------------------------
  // Which element is hidden, and how many

  /** Every card has a parent where the parent is the one hidden. */
  predicate HasTargets(videos: seq<VideoInfo>, pageType: Content.PageType) {
    pageType == Content.Feed ==> forall i :: 0 <= i < |videos| ==> videos[i].element.parent != null
  }

  /** The card's parent on feed pages, the card itself elsewhere. */
  function Target(v: VideoInfo, pageType: Content.PageType): Dom.Div
    requires pageType == Content.Feed ==> v.element.parent != null
  {
    if pageType == Content.Feed then v.element.parent else v.element
  }

  function Targets(videos: seq<VideoInfo>, pageType: Content.PageType): set<Dom.Div>
    requires HasTargets(videos, pageType)
  {
    set i | 0 <= i < |videos| :: Target(videos[i], pageType)
  }

  /** The element `d` is the target of some card the rule hides. */
  predicate HiddenBy(d: Dom.Div, videos: seq<VideoInfo>, hides: VideoInfo -> bool, pageType: Content.PageType)
    requires HasTargets(videos, pageType)
  {
    exists i :: 0 <= i < |videos| && hides(videos[i]) && Target(videos[i], pageType) == d
  }

  /** The number of cards the rule hides. */
  function CountHidden(videos: seq<VideoInfo>, hides: VideoInfo -> bool): nat {
    if videos == [] then 0
    else CountHidden(videos[..|videos| - 1], hides) + (if hides(videos[|videos| - 1]) then 1 else 0)
  }

  /** The count is at most the number of cards: zero exactly when the rule hides none,
      all of them exactly when it hides every card. */
  lemma {:induction false} CountHiddenBounds(videos: seq<VideoInfo>, hides: VideoInfo -> bool)
    ensures CountHidden(videos, hides) <= |videos|
    ensures CountHidden(videos, hides) == 0 <==> forall i :: 0 <= i < |videos| ==> !hides(videos[i])
    ensures CountHidden(videos, hides) == |videos| <==> forall i :: 0 <= i < |videos| ==> hides(videos[i])
    decreases |videos|
  {
    if videos != [] {
      var front := videos[..|videos| - 1];
      CountHiddenBounds(front, hides);
      assert forall i :: 0 <= i < |front| ==> front[i] == videos[i];
    }
  }

  /** Two rules that agree on every card hide the same number of cards. */
  lemma {:induction false} CountHiddenAgrees(videos: seq<VideoInfo>, h1: VideoInfo -> bool, h2: VideoInfo -> bool)
    requires forall v :: h1(v) == h2(v)
    ensures CountHidden(videos, h1) == CountHidden(videos, h2)
    decreases |videos|
  {
    if videos != [] {
      CountHiddenAgrees(videos[..|videos| - 1], h1, h2);
    }
  }

  /** Growing the processed prefix by one card. */
  lemma HiddenByStep(d: Dom.Div, videos: seq<VideoInfo>, i: nat, hides: VideoInfo -> bool, pageType: Content.PageType)
    requires i < |videos| && HasTargets(videos, pageType)
    ensures HasTargets(videos[..i], pageType) && HasTargets(videos[..i + 1], pageType)
    ensures HiddenBy(d, videos[..i + 1], hides, pageType) <==>
      HiddenBy(d, videos[..i], hides, pageType) || (hides(videos[i]) && Target(videos[i], pageType) == d)
    ensures CountHidden(videos[..i + 1], hides) == CountHidden(videos[..i], hides) + (if hides(videos[i]) then 1 else 0)
  {
    assert videos[..i + 1][..i] == videos[..i];
    if HiddenBy(d, videos[..i + 1], hides, pageType) {
      var j :| 0 <= j < i + 1 && hides(videos[..i + 1][j]) && Target(videos[..i + 1][j], pageType) == d;
      if j < i {
        assert videos[..i][j] == videos[j];
      }
    }
    if HiddenBy(d, videos[..i], hides, pageType) {
      var j :| 0 <= j < i && hides(videos[..i][j]) && Target(videos[..i][j], pageType) == d;
      assert videos[..i + 1][j] == videos[j];
    }
    if hides(videos[i]) && Target(videos[i], pageType) == d {
      assert videos[..i + 1][i] == videos[i];
    }
  }

  // ---------------------------------------------------------------------------
  // The filter

  /** Hides the matching cards. A minimum that parses to NaN stops everything, the title
      rule included; otherwise each card is hidden by title, or failing that by duration,
      `removedCount` counts the cards hidden, and only their targets' `display` changes. */
  method HideSlopFeed(feedVideos: seq<VideoInfo>, minDurationString: string, badTitleRegexString: string,
                      pageType: Content.PageType, test: RegexTest)
    returns (removedCount: nat)
    requires HasTargets(feedVideos, pageType)
    modifies Targets(feedVideos, pageType)
    ensures var minDuration := Duration.Seconds(minDurationString);
      removedCount == if minDuration.None? then 0
                      else CountHidden(feedVideos, Rule(minDuration, badTitleRegexString, test))
    ensures forall d :: d in Targets(feedVideos, pageType) ==>
      d.display == if Duration.Seconds(minDurationString).Some?
                      && HiddenBy(d, feedVideos, Rule(Duration.Seconds(minDurationString), badTitleRegexString, test), pageType)
                   then Dom.Hidden else old(d.display)
  {
    var minDuration := Duration.ParseDurationSeconds(minDurationString);
    removedCount := 0;
    if minDuration.None? {
      return;
    }
    var rule := Rule(minDuration, badTitleRegexString, test);
    var useRegex := |badTitleRegexString| > 0;
    assert feedVideos[..0] == [];
    for i := 0 to |feedVideos|
      invariant HasTargets(feedVideos[..i], pageType)
      invariant removedCount == CountHidden(feedVideos[..i], rule)
      invariant forall d :: d in Targets(feedVideos, pageType) ==>
        d.display == if HiddenBy(d, feedVideos[..i], rule, pageType) then Dom.Hidden else old(d.display)
    {
      var video := feedVideos[i];
      var toRemove := Target(video, pageType);
      assert toRemove in Targets(feedVideos, pageType);
      forall d | d in Targets(feedVideos, pageType) {
        HiddenByStep(d, feedVideos, i, rule, pageType);
      }
      assert rule(video) <==> (useRegex && test(badTitleRegexString, video.title)) || DurationRuleHides(video, minDuration);

      if useRegex && test(badTitleRegexString, video.title) {
        Dom.HideDiv(toRemove);
        removedCount := removedCount + 1;
        continue;
      }

      if video.duration.None? || video.duration.value == "" {
        continue;
      }
      var seconds := Duration.ParseDurationSeconds(video.duration.value);
      if Less(seconds, minDuration) {
        Dom.HideDiv(toRemove);
        removedCount := removedCount + 1;
      }
    }
    assert feedVideos[..|feedVideos|] == feedVideos;
  }

  // ---------------------------------------------------------------------------
  // Properties of the rule

  /** An empty pattern switches the title rule off. */
  lemma EmptyPatternDisablesTitleRule(v: VideoInfo, minDuration: Option<int>, test: RegexTest)
    ensures Hides(v, minDuration, "", test) <==> DurationRuleHides(v, minDuration)
  {
  }

  /** The duration rule is a strict comparison on parsed seconds: a card with no duration,
      an empty one, one that parses to NaN, or one equal to the minimum is kept. */
  lemma DurationRuleIff(v: VideoInfo, minDuration: int)
    ensures DurationRuleHides(v, Some(minDuration)) <==>
      && v.duration.Some? && v.duration.value != ""
      && Duration.Seconds(v.duration.value).Some?
      && Duration.Seconds(v.duration.value).value < minDuration
    ensures v.duration.Some? && Duration.Seconds(v.duration.value) == Some(minDuration) ==>
      !DurationRuleHides(v, Some(minDuration))
    ensures v.duration.Some? && Duration.Seconds(v.duration.value).None? ==> !DurationRuleHides(v, Some(minDuration))
  {
  }

  /** With a ten-minute minimum, a 9:59 video is hidden and a 10:00 video is kept. */
  lemma TenMinuteMinimum(short: VideoInfo, exact: VideoInfo)
    requires short.duration == Some("00:09:59") && exact.duration == Some("00:10:00")
    ensures DurationRuleHides(short, Duration.Seconds("00:10:00"))
    ensures !DurationRuleHides(exact, Duration.Seconds("00:10:00"))
  {
    Duration.TenMinutes();
    Duration.NineFiftyNine("00:09:59");
  }
}
