/** Turning the video cards of an Invidious page into records. Every DOM query is an
    input: a card is the text and attributes its selectors would find. */
module Extractor {
  import opened Js
  import Strings
  import Dom

  datatype Result<+T, +E> = Success(value: T) | Failure(error: E)

  /** The field whose absence stopped the extraction. */
  datatype VideoParseError = TitleNotFound | ChannelNameNotFound | ChannelLinkNotFound | VideoLinkNotFound

  function Message(e: VideoParseError): string {
    match e
    case TitleNotFound => "Could not find video title"
    case ChannelNameNotFound => "Could not find channel name"
    case ChannelLinkNotFound => "Could not find channel link"
    case VideoLinkNotFound => "Could not find video link"
  }

  /** An absolute URL, as `URL.parse` builds it. */
  datatype Url = Url(href: string)

  /** `URL.parse(path, document.location.href)`: none when the path does not parse. */
  type UrlParser = string -> Option<Url>

  /** An anchor element: its text content and its `href` attribute, if any. */
  datatype Anchor = Anchor(text: string, href: Option<string>)

  /** One card (the parent of a `video-card-row`) and what its selectors find:
      the title paragraph's text, the `/channel/` anchor, the thumbnail anchor and the
      length paragraph's text. */
  datatype VideoCard = VideoCard(
    element: Dom.Div,
    titleText: Option<string>,
    channelAnchor: Option<Anchor>,
    thumbnailAnchor: Option<Anchor>,
    lengthText: Option<string>)

  datatype VideoInfo = VideoInfo(
    title: string,
    channelName: string,
    channelLink: Url,
    videoLink: Url,
    duration: Option<string>,
    element: Dom.Div)

  /** `anchor?.getAttribute("href")`: undefined without an anchor, null without the attribute. */
  function HrefOf(anchor: Option<Anchor>): JsValue {
    match anchor
    case None => Undefined
    case Some(a) => OptionalString(a.href)
  }

  /** A URL for a path attribute; null for anything that is not a string. */
  function NormalizeUrl(pathName: JsValue, parse: UrlParser): (r: Option<Url>)
    ensures !pathName.Str? ==> r.None?
    ensures pathName.Str? ==> r == parse(pathName.s)
  {
    if pathName.Str? then parse(pathName.s) else None
  }

  predicate HasTitle(card: VideoCard) {
    card.titleText.Some? && card.titleText.value != ""
  }

  /** `channelLinkElement?.textContent?.trim()`, empty when there is no anchor. */
  function ChannelName(card: VideoCard): string {
    if card.channelAnchor.Some? then Strings.Trim(card.channelAnchor.value.text) else ""
  }

  function ChannelLink(card: VideoCard, parse: UrlParser): Option<Url> {
    NormalizeUrl(HrefOf(card.channelAnchor), parse)
  }

  function VideoLink(card: VideoCard, parse: UrlParser): Option<Url> {
    NormalizeUrl(HrefOf(card.thumbnailAnchor), parse)
  }

  /** The duration text, `null` when it is missing or empty. */
  function DurationText(card: VideoCard): (d: Option<string>)
    ensures d.None? <==> card.lengthText.None? || card.lengthText.value == ""
    ensures d.Some? ==> d == card.lengthText
  {
    if card.lengthText.Some? && card.lengthText.value != "" then card.lengthText else None
  }

  /** The fields in the order they are checked, each with the error its absence raises. */
  function Checks(card: VideoCard, parse: UrlParser): seq<(bool, VideoParseError)> {
    [ (HasTitle(card), TitleNotFound),
      (ChannelName(card) != "", ChannelNameNotFound),
      (ChannelLink(card, parse).Some?, ChannelLinkNotFound),
      (VideoLink(card, parse).Some?, VideoLinkNotFound) ]
  }

  /** The error of the first check that fails. */
  function FirstFailure(checks: seq<(bool, VideoParseError)>): Option<VideoParseError> {
    if checks == [] then None
    else if !checks[0].0 then Some(checks[0].1)
    else FirstFailure(checks[1..])
  }

  /** `FirstFailure` finds a failing check with every check before it passing, and
      finds none exactly when every check passes. */
  lemma {:induction false} FirstFailureSpec(checks: seq<(bool, VideoParseError)>)
    ensures FirstFailure(checks).None? <==> forall i :: 0 <= i < |checks| ==> checks[i].0
    ensures FirstFailure(checks).Some? ==>
      exists i :: 0 <= i < |checks| && !checks[i].0 && checks[i].1 == FirstFailure(checks).value
        && forall j :: 0 <= j < i ==> checks[j].0
    decreases |checks|
  {
    if checks != [] && checks[0].0 {
      FirstFailureSpec(checks[1..]);
      assert forall j :: 1 <= j < |checks| ==> checks[j] == checks[1..][j - 1];
      if FirstFailure(checks[1..]).Some? {
        var i :| 0 <= i < |checks[1..]| && !checks[1..][i].0 && checks[1..][i].1 == FirstFailure(checks).value
                 && forall j :: 0 <= j < i ==> checks[1..][j].0;
        assert !checks[i + 1].0 && checks[i + 1].1 == FirstFailure(checks).value;
      }
    }
    if checks != [] && !checks[0].0 {
      assert !checks[0].0;
    }
  }

  /** One card as a record, or the error of its first missing field. The title and the
      channel name are never empty, the channel name is trimmed, and a missing or empty
      duration is `null` rather than an error. */
  function ExtractBasic(card: VideoCard, parse: UrlParser): (r: Result<VideoInfo, VideoParseError>)
    ensures r.Success? <==>
      HasTitle(card) && ChannelName(card) != "" && ChannelLink(card, parse).Some? && VideoLink(card, parse).Some?
    ensures r.Success? ==>
      && r.value.title == card.titleText.value && r.value.title != ""
      && card.channelAnchor.Some? && r.value.channelName == Strings.Trim(card.channelAnchor.value.text)
      && r.value.channelName != ""
      && Some(r.value.channelLink) == ChannelLink(card, parse)
      && Some(r.value.videoLink) == VideoLink(card, parse)
      && r.value.duration == DurationText(card)
      && r.value.element == card.element
  {
    if !HasTitle(card) then Failure(TitleNotFound)
    else if ChannelName(card) == "" then Failure(ChannelNameNotFound)
    else if ChannelLink(card, parse).None? then Failure(ChannelLinkNotFound)
    else if VideoLink(card, parse).None? then Failure(VideoLinkNotFound)
    else
      Success(VideoInfo(card.titleText.value, ChannelName(card), ChannelLink(card, parse).value,
                        VideoLink(card, parse).value, DurationText(card), card.element))
  }

  /** The error a card raises is that of the first check, in the order title, channel
      name, channel link, video link, that fails. */
  lemma ErrorIsFirstMissingField(card: VideoCard, parse: UrlParser)
    ensures ExtractBasic(card, parse).Failure? <==> FirstFailure(Checks(card, parse)).Some?
    ensures ExtractBasic(card, parse).Failure? ==> ExtractBasic(card, parse).error == FirstFailure(Checks(card, parse)).value
  {
    var c0 := Checks(card, parse);
    var c1, c2, c3 := c0[1..], c0[2..], c0[3..];
    assert c0[1..][1..] == c2 && c2[1..] == c3 && c3[1..] == [];
    assert FirstFailure(c3) == if !c3[0].0 then Some(c3[0].1) else FirstFailure([]);
    assert FirstFailure(c2) == if !c2[0].0 then Some(c2[0].1) else FirstFailure(c3);
    assert FirstFailure(c1) == if !c1[0].0 then Some(c1[0].1) else FirstFailure(c2);
    assert FirstFailure(c0) == if !c0[0].0 then Some(c0[0].1) else FirstFailure(c1);
  }

  /** The two extraction strategies; both use `ExtractBasic` today. */
  datatype Strategy = WatchNext | FeedCards

  function Extract(strategy: Strategy, card: VideoCard, parse: UrlParser): Result<VideoInfo, VideoParseError> {
    match strategy
    case WatchNext => ExtractBasic(card, parse)
    case FeedCards => ExtractBasic(card, parse)
  }

  /** Every card in order; the first card that fails aborts the whole extraction. */
  function ExtractAll(strategy: Strategy, cards: seq<VideoCard>, parse: UrlParser): (r: Result<seq<VideoInfo>, VideoParseError>)
    ensures r.Success? <==> forall i :: 0 <= i < |cards| ==> Extract(strategy, cards[i], parse).Success?
    ensures r.Success? ==>
      && |r.value| == |cards|
      && forall i :: 0 <= i < |cards| ==> Extract(strategy, cards[i], parse) == Success(r.value[i])
    decreases |cards|
  {
    if cards == [] then Success([])
    else
      var head := Extract(strategy, cards[0], parse);
      if head.Failure? then Failure(head.error)
      else
        var rest := ExtractAll(strategy, cards[1..], parse);
        assert forall i :: 1 <= i < |cards| ==> cards[i] == cards[1..][i - 1];
        if rest.Failure? then Failure(rest.error)
        else Success([head.value] + rest.value)
  }

  /** A failed extraction reports the error of the first card that fails. */
  lemma {:induction false} ExtractAllFailure(strategy: Strategy, cards: seq<VideoCard>, parse: UrlParser)
    requires ExtractAll(strategy, cards, parse).Failure?
    ensures var e := ExtractAll(strategy, cards, parse).error;
      exists i :: 0 <= i < |cards| && Extract(strategy, cards[i], parse) == Failure(e)
        && forall j :: 0 <= j < i ==> Extract(strategy, cards[j], parse).Success?
    decreases |cards|
  {
    var e := ExtractAll(strategy, cards, parse).error;
    if Extract(strategy, cards[0], parse).Success? {
      ExtractAllFailure(strategy, cards[1..], parse);
      var i :| 0 <= i < |cards[1..]| && Extract(strategy, cards[1..][i], parse) == Failure(e)
               && forall j :: 0 <= j < i ==> Extract(strategy, cards[1..][j], parse).Success?;
      assert cards[i + 1] == cards[1..][i];
      assert forall j :: 1 <= j < i + 1 ==> cards[j] == cards[1..][j - 1];
    }
  }

  /** `/watch` uses the watch-next strategy, a `/feed` prefix the feed strategy, and any
      other path extracts nothing. */
  function StrategyFor(pathname: string): (s: Option<Strategy>)
    ensures s == Some(WatchNext) <==> pathname == "/watch"
    ensures s == Some(FeedCards) <==> pathname != "/watch" && Strings.StartsWith(pathname, "/feed")
  {
    if pathname == "/watch" then Some(WatchNext)
    else if Strings.StartsWith(pathname, "/feed") then Some(FeedCards)
    else None
  }

  function ExtractFromPage(pathname: string, cards: seq<VideoCard>, parse: UrlParser): (r: Result<seq<VideoInfo>, VideoParseError>)
    ensures StrategyFor(pathname).None? ==> r == Success([])
    ensures StrategyFor(pathname).Some? ==> r == ExtractAll(StrategyFor(pathname).value, cards, parse)
  {
    match StrategyFor(pathname)
    case None => Success([])
    case Some(strategy) => ExtractAll(strategy, cards, parse)
  }

  /** On an extracting page: one record per card, in card order, each for its own card;
      and one card without its fields makes the whole page fail with that card's error. */
  lemma PageExtraction(pathname: string, cards: seq<VideoCard>, parse: UrlParser)
    requires pathname == "/watch" || Strings.StartsWith(pathname, "/feed")
    ensures var r := ExtractFromPage(pathname, cards, parse);
      && (r.Success? ==> |r.value| == |cards| && forall i :: 0 <= i < |cards| ==> r.value[i].element == cards[i].element)
      && (r.Success? <==> forall i :: 0 <= i < |cards| ==> ExtractBasic(cards[i], parse).Success?)
      && (r.Failure? ==> exists i :: 0 <= i < |cards| && ExtractBasic(cards[i], parse) == Failure(r.error))
  {
    var strategy := StrategyFor(pathname).value;
    assert forall i :: 0 <= i < |cards| ==> Extract(strategy, cards[i], parse) == ExtractBasic(cards[i], parse);
    if ExtractAll(strategy, cards, parse).Failure? {
      ExtractAllFailure(strategy, cards, parse);
    }
  }
}
