/** The DeArrow resolution performed by the background script for one video: the
    branding key, the upstream requests, and what title and thumbnail come back.
    Every network answer is an input (an `Upstream` value); `Resolve` is the
    specification the background script's `HandleDeArrow` method is proved against. */
module DeArrow {
  import opened Js

  type Byte = b: int | 0 <= b < 256

  // ---------------------------------------------------------------------------
  // Branding key: the first four hex characters of the SHA-256 digest

  function HexDigit(n: nat): char
    requires n < 16
  {
    "0123456789abcdef"[n]
  }

  /** The value of one lowercase hex digit. */
  function HexValue(c: char): (r: Option<nat>)
    ensures r.Some? ==> r.value < 16
  {
    if '0' <= c <= '9' then Some(c as int - '0' as int)
    else if 'a' <= c <= 'f' then Some(c as int - 'a' as int + 10)
    else None
  }

  lemma HexValueOfDigit(n: nat)
    requires n < 16
    ensures HexValue(HexDigit(n)) == Some(n)
  {
    var digits := "0123456789abcdef";
    assert digits[n] as int == if n < 10 then '0' as int + n else 'a' as int + n - 10 by {
      if n < 10 {
        assert digits[..10] == "0123456789";
      } else {
        assert digits[10..] == "abcdef";
      }
    }
  }

  /** `b.toString(16)`: one digit below 16, two from 16 on. */
  function ToHex(b: Byte): string {
    if b < 16 then [HexDigit(b)] else [HexDigit(b / 16), HexDigit(b % 16)]
  }

  /** `s.padStart(width, fill)`. */
  function PadStart(s: string, width: nat, fill: char): string {
    if |s| >= width then s else seq(width - |s|, _ => fill) + s
  }

  /** One digest byte as the source renders it: `b.toString(16).padStart(2, "0")`. */
  function ByteHex(b: Byte): (r: string)
    ensures r == [HexDigit(b / 16), HexDigit(b % 16)]
  {
    PadStart(ToHex(b), 2, '0')
  }

  /** Reads two hex digits back into a byte: the inverse of `ByteHex`. */
  function ParseHexByte(s: string): Option<Byte> {
    if |s| == 2 && HexValue(s[0]).Some? && HexValue(s[1]).Some?
    then Some(16 * HexValue(s[0]).value + HexValue(s[1]).value)
    else None
  }

  lemma ByteHexRoundTrip(b: Byte)
    ensures ParseHexByte(ByteHex(b)) == Some(b)
  {
    HexValueOfDigit(b / 16);
    HexValueOfDigit(b % 16);
  }

  /** `digest.map(ByteHex).join("")`. */
  function HexJoin(digest: seq<Byte>): (r: string)
    ensures |r| == 2 * |digest|
  {
    if digest == [] then "" else ByteHex(digest[0]) + HexJoin(digest[1..])
  }

  /** The path segment of the branding request: `HexJoin(digest).substring(0, 4)`. */
  function Sha256Prefix(digest: seq<Byte>): string {
    var hex := HexJoin(digest);
    hex[..if |hex| < 4 then |hex| else 4]
  }

  /** The key is the hex of the first two digest bytes, so it always has four characters. */
  lemma PrefixIsFirstTwoBytes(digest: seq<Byte>)
    requires |digest| >= 2
    ensures Sha256Prefix(digest) == ByteHex(digest[0]) + ByteHex(digest[1])
    ensures |Sha256Prefix(digest)| == 4
    ensures forall i :: 0 <= i < 4 ==> HexValue(Sha256Prefix(digest)[i]).Some?
  {
    var hex := HexJoin(digest);
    assert digest[1..][0] == digest[1];
    assert digest[1..][1..] == digest[2..];
    assert HexJoin(digest[1..]) == ByteHex(digest[1]) + HexJoin(digest[2..]);
    assert hex == ByteHex(digest[0]) + HexJoin(digest[1..]);
    assert hex[..4] == ByteHex(digest[0]) + ByteHex(digest[1]);
    HexValueOfDigit(digest[0] / 16);
    HexValueOfDigit(digest[0] % 16);
    HexValueOfDigit(digest[1] / 16);
    HexValueOfDigit(digest[1] % 16);
  }

  /** Two digests share a branding key exactly when their first two bytes agree. */
  lemma PrefixDeterminesLeadingBytes(d1: seq<Byte>, d2: seq<Byte>)
    requires |d1| >= 2 && |d2| >= 2
    ensures Sha256Prefix(d1) == Sha256Prefix(d2) <==> d1[..2] == d2[..2]
  {
    PrefixIsFirstTwoBytes(d1);
    PrefixIsFirstTwoBytes(d2);
    if Sha256Prefix(d1) == Sha256Prefix(d2) {
      var p := Sha256Prefix(d1);
      assert ByteHex(d1[0]) == p[..2] == ByteHex(d2[0]);
      assert ByteHex(d1[1]) == p[2..] == ByteHex(d2[1]);
      ByteHexRoundTrip(d1[0]);
      ByteHexRoundTrip(d2[0]);
      ByteHexRoundTrip(d1[1]);
      ByteHexRoundTrip(d2[1]);
      assert d1[..2] == [d1[0], d1[1]];
      assert d2[..2] == [d2[0], d2[1]];
    }
    if d1[..2] == d2[..2] {
      assert d1[0] == d1[..2][0] && d1[1] == d1[..2][1];
    }
  }

  // ---------------------------------------------------------------------------
  // Upstream requests

  const ThumbnailEndpoint := "https://dearrow-thumb.ajay.app/api/v1/getThumbnail?videoID="
  const BrandingEndpoint := "https://sponsor.ajay.app/api/branding/"

  /** A request the resolver issues; a thumbnail request without a time asks for the default. */
  datatype Fetch =
    | ThumbnailFetch(videoId: string, time: Option<JsValue>)
    | BrandingFetch(hashPrefix: string)

  /** The request URL; `numberText` is how a template literal renders the time. */
  function FetchUrl(f: Fetch, numberText: JsValue -> string): (url: string)
    ensures f.ThumbnailFetch? ==> |ThumbnailEndpoint| <= |url| && url[..|ThumbnailEndpoint|] == ThumbnailEndpoint
    ensures f.ThumbnailFetch? && f.time.None? ==> url[|ThumbnailEndpoint|..] == f.videoId
    ensures f.ThumbnailFetch? && f.time.Some? ==>
      url[|ThumbnailEndpoint|..] == f.videoId + "&time=" + numberText(f.time.value)
    ensures f.BrandingFetch? ==> url == BrandingEndpoint + f.hashPrefix
  {
    match f
    case ThumbnailFetch(videoId, time) =>
      ThumbnailEndpoint + videoId + (match time case None => "" case Some(t) => "&time=" + numberText(t))
    case BrandingFetch(prefix) => BrandingEndpoint + prefix
  }

  // ---------------------------------------------------------------------------
  // Inputs and result of one resolution

  /** A thumbnail-service reply: status, body size, the body as a data URI (what the
      blob-to-URI conversion yields), and the `X-Timestamp` / `X-Title` headers. */
  datatype ThumbnailReply = ThumbnailReply(
    status: int, bodySize: nat, dataUri: string, xTimestamp: Option<string>, xTitle: Option<string>)

  /** A branding-service reply: status and the parsed JSON body. */
  datatype BrandingReply = BrandingReply(status: int, json: JsValue)

  /** What the network would answer to each request the resolver can make. */
  datatype Upstream = Upstream(
    digest: seq<Byte>,
    defaultThumbnail: ThumbnailReply,
    branding: BrandingReply,
    timedThumbnail: ThumbnailReply)

  /** A session-cache record as stored under `video_<id>`. */
  datatype VideoCache = VideoCache(deArrowTitle: JsValue, deArrowThumbnailTime: JsValue)

  /** The outcome: the reply's title and thumbnail URI, the thumbnail time reached,
      the session-cache write (if any) and the requests issued, in order. */
  datatype Resolution = Resolution(
    title: JsValue,
    thumbnailTime: JsValue,
    thumbnailUri: Option<string>,
    cacheWrite: Option<VideoCache>,
    fetches: seq<Fetch>)

  predicate UriTruthy(uri: Option<string>) {
    uri.Some? && uri.value != ""
  }

  function CachedTitle(cached: Option<VideoCache>): JsValue {
    if cached.Some? then cached.value.deArrowTitle else Null
  }

  function CachedTime(cached: Option<VideoCache>): JsValue {
    if cached.Some? then cached.value.deArrowThumbnailTime else Null
  }

  /** The branding service is asked only when the cache gave neither a title nor a time. */
  predicate ConsultsBranding(cached: Option<VideoCache>) {
    !Truthy(CachedTitle(cached)) && !Truthy(CachedTime(cached))
  }

  predicate BrandingUsable(reply: BrandingReply) {
    reply.status == 200 && Truthy(reply.json)
  }

  function TimestampOf(json: JsValue, videoId: string): Outcome {
    Path(json, [videoId, "thumbnails", "0", "timestamp"])
  }

  function OriginalOf(json: JsValue, videoId: string): Outcome {
    Path(json, [videoId, "thumbnails", "0", "original"])
  }

  function TitleOf(json: JsValue, videoId: string): Outcome {
    Path(json, [videoId, "titles", "0", "title"])
  }

  /** The thumbnail time read from a usable branding reply: the first thumbnail's
      `timestamp`; when reaching it throws, `randomTime * videoDuration`; when that
      throws as well, null. */
  function ResolvedTime(json: JsValue, videoId: string): JsValue {
    match TimestampOf(json, videoId)
    case Value(t) => t
    case Thrown =>
      match Path(json, [videoId, "randomTime"])
      case Thrown => Null
      case Value(randomTime) =>
        match Path(json, [videoId, "videoDuration"])
        case Thrown => Null
        case Value(duration) => Multiply(randomTime, duration)
  }

  /** The default thumbnail is discarded when no time was found and the first branding
      thumbnail says the original is wanted. */
  predicate DropsDefault(json: JsValue, videoId: string, time: JsValue, uri: Option<string>) {
    && !Truthy(time)
    && UriTruthy(uri)
    && OriginalOf(json, videoId).Value?
    && Truthy(OriginalOf(json, videoId).v)
  }

  /** The second thumbnail request: a time exists but the default came back empty with
      204, or the default's `X-Timestamp` header differs (`!==`) from the time. */
  predicate NeedsRefetch(time: JsValue, first: ThumbnailReply, uri: Option<string>, headerTime: JsValue) {
    || (Truthy(time) && first.bodySize == 0 && first.status == 204)
    || (UriTruthy(uri) && Truthy(headerTime) && Truthy(time) && !StrictEquals(headerTime, time))
  }

  function DefaultUri(first: ThumbnailReply): Option<string> {
    if first.bodySize != 0 then Some(first.dataUri) else None
  }

  function HeaderTime(first: ThumbnailReply): JsValue {
    if first.bodySize != 0 then OptionalString(first.xTimestamp) else Null
  }

  /** Everything up to the second thumbnail request: the cache lookup, the default
      thumbnail, and the branding lookup when the cache had neither title nor time. */
  function BrandingStage(videoId: string, cached: Option<VideoCache>, up: Upstream): Resolution {
    var first := up.defaultThumbnail;
    var consulted := ConsultsBranding(cached);
    var usable := consulted && BrandingUsable(up.branding);
    var json := up.branding.json;
    var time := if usable then ResolvedTime(json, videoId) else CachedTime(cached);
    var uri := if usable && DropsDefault(json, videoId, time, DefaultUri(first)) then None else DefaultUri(first);
    var title :=
      if usable then (match TitleOf(json, videoId) case Value(t) => t case Thrown => Null)
      else if consulted && first.xTitle.Some? && first.xTitle.value != "" then Str(first.xTitle.value)
      else CachedTitle(cached);
    var write :=
      if usable && TitleOf(json, videoId).Value? then Some(VideoCache(TitleOf(json, videoId).v, Undefined))
      else None;
    Resolution(
      title, time, uri, write,
      [ThumbnailFetch(videoId, None)] + (if consulted then [BrandingFetch(Sha256Prefix(up.digest))] else []))
  }

  /** Whether the second thumbnail request is made after `BrandingStage`. */
  predicate Refetches(videoId: string, cached: Option<VideoCache>, up: Upstream) {
    var r := BrandingStage(videoId, cached, up);
    NeedsRefetch(r.thumbnailTime, up.defaultThumbnail, r.thumbnailUri, HeaderTime(up.defaultThumbnail))
  }

  /** The whole resolution of `videoId` given the cached record and the upstream replies. */
  function Resolve(videoId: string, cached: Option<VideoCache>, up: Upstream): Resolution {
    var r := BrandingStage(videoId, cached, up);
    if Refetches(videoId, cached, up) then
      r.(thumbnailUri := if up.timedThumbnail.bodySize != 0 then Some(up.timedThumbnail.dataUri) else r.thumbnailUri,
         fetches := r.fetches + [ThumbnailFetch(videoId, Some(r.thumbnailTime))])
    else r
  }
}
