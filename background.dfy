/** The background script: it answers the content script's messages, keeps the
    watched state of each video in local storage and the DeArrow title cache in
    session storage. */
module Background {
  import opened Js
  import Strings
  import opened DeArrow

  /** The messages the content script sends; any other `type` is `UnknownRequest`. */
  datatype BackgroundRequest =
    | EchoRequest
    | IsWatchedRequest(videoId: string)
    | SetWatchedRequest(videoId: string, value: bool)
    | DeArrowRequest(videoId: string)
    | UnknownRequest

  datatype BackgroundResponse =
    | EchoResponse(response: string)
    | IsWatchedResponse(value: bool)
    | Completed
    | ErrorResponse(description: string)
    | DeArrowResponse(title: JsValue, thumbnailUri: Option<string>)

  /** The `type` tag a response carries on the wire. */
  function ResponseType(r: BackgroundResponse): string {
    match r
    case EchoResponse(_) => "echo"
    case IsWatchedResponse(_) => "isWatched"
    case Completed => "completed"
    case ErrorResponse(_) => "error"
    case DeArrowResponse(_, _) => "deArrow"
  }

  /** The response type each request is answered with. */
  function ExpectedResponseType(r: BackgroundRequest): string {
    match r
    case EchoRequest => "echo"
    case IsWatchedRequest(_) => "isWatched"
    case SetWatchedRequest(_, _) => "completed"
    case DeArrowRequest(_) => "deArrow"
    case UnknownRequest => "error"
  }

  /** A local-storage record. */
  datatype VideoRecord = VideoRecord(isWatched: bool)

  const VideoKeyPrefix := "video_"

  /** The storage key of a video: `video_<id>`. */
  function GetVideoKey(videoId: string): (key: string)
    ensures Strings.StartsWith(key, VideoKeyPrefix)
    ensures key[|VideoKeyPrefix|..] == videoId
  {
    VideoKeyPrefix + videoId
  }

  /** Distinct videos get distinct keys, and no video key is the configuration key. */
  lemma VideoKeyInjective(a: string, b: string)
    ensures GetVideoKey(a) == GetVideoKey(b) <==> a == b
    ensures GetVideoKey(a) != "config"
  {
    if GetVideoKey(a) == GetVideoKey(b) {
      assert a == GetVideoKey(a)[|VideoKeyPrefix|..] == GetVideoKey(b)[|VideoKeyPrefix|..] == b;
    }
    assert GetVideoKey(a)[0] == 'v';
  }

  /** The watched state local storage holds for a video; false when it has no record. */
  function WatchedIn(local: map<string, VideoRecord>, videoId: string): bool {
    var key := GetVideoKey(videoId);
    key in local && local[key].isWatched
  }

  lemma NeverSetIsUnwatched(local: map<string, VideoRecord>, videoId: string)
    requires GetVideoKey(videoId) !in local
    ensures !WatchedIn(local, videoId)
  {
  }

  /** Setting a video's state is read back, and every other video keeps its state. */
  lemma SetThenRead(local: map<string, VideoRecord>, videoId: string, value: bool, other: string)
    ensures WatchedIn(local[GetVideoKey(videoId) := VideoRecord(value)], videoId) == value
    ensures other != videoId ==>
      WatchedIn(local[GetVideoKey(videoId) := VideoRecord(value)], other) == WatchedIn(local, other)
  {
    VideoKeyInjective(videoId, other);
  }

  /** Both storage areas the background script uses. */
  class BackgroundScript {
    var local: map<string, VideoRecord>
    var session: map<string, VideoCache>

    /** Local storage persists; the session area starts empty when the extension loads. */
    constructor (local: map<string, VideoRecord>)
      ensures this.local == local && session == map[]
      ensures Valid()
    {
      this.local := local;
      session := map[];
    }

    /** Every session entry was written by `HandleDeArrow`: a title and no time. */
    ghost predicate Valid()
      reads this
    {
      forall key :: key in session ==> session[key].deArrowThumbnailTime == Undefined
    }

    /** The cached record of a video, read from session storage. */
    function CacheEntry(videoId: string): (entry: Option<VideoCache>)
      reads this
      ensures entry.Some? <==> GetVideoKey(videoId) in session
      ensures entry.Some? ==> entry.value == session[GetVideoKey(videoId)]
    {
      var key := GetVideoKey(videoId);
      if key in session then Some(session[key]) else None
    }

    /** A cache hit never supplies a thumbnail time, so the branding service is asked
        exactly when no truthy title is cached. */
    lemma CacheHitCarriesNoTime(videoId: string)
      requires Valid()
      ensures !Truthy(CachedTime(CacheEntry(videoId)))
      ensures ConsultsBranding(CacheEntry(videoId)) <==> !Truthy(CachedTitle(CacheEntry(videoId)))
    {
    }

    /** The stored record of a video, or none. */
    method GetRecord(videoId: string) returns (record: Option<VideoRecord>)
      ensures record.Some? <==> GetVideoKey(videoId) in local
      ensures record.Some? ==> record.value == local[GetVideoKey(videoId)]
    {
      var videoKey := GetVideoKey(videoId);
      if videoKey in local {
        record := Some(local[videoKey]);
      } else {
        record := None;
      }
    }

    method HandleIsWatched(videoId: string) returns (response: BackgroundResponse)
      ensures response == IsWatchedResponse(WatchedIn(local, videoId))
    {
      var record := GetRecord(videoId);
      if record.Some? {
        response := IsWatchedResponse(record.value.isWatched);
      } else {
        response := IsWatchedResponse(false);
      }
    }

    method HandleSetWatched(videoId: string, value: bool) returns (response: BackgroundResponse)
      modifies this
      ensures local == old(local)[GetVideoKey(videoId) := VideoRecord(value)]
      ensures session == old(session)
      ensures response == Completed
      ensures WatchedIn(local, videoId) == value
    {
      var record := GetRecord(videoId);
      var stored := VideoRecord(value);
      local := local[GetVideoKey(videoId) := stored];
      response := Completed;
      SetThenRead(old(local), videoId, value, videoId);
    }

    /** The thumbnail time from a usable branding reply (the nested try/catch). */
    static method ReadThumbnailTime(json: JsValue, videoId: string) returns (thumbnailTime: JsValue)
      ensures thumbnailTime == ResolvedTime(json, videoId)
    {
      var timestamp := Path(json, [videoId, "thumbnails", "0", "timestamp"]);
      if timestamp.Value? {
        thumbnailTime := timestamp.v;
      } else {
        var randomTime := Path(json, [videoId, "randomTime"]);
        var videoDuration := Path(json, [videoId, "videoDuration"]);
        if randomTime.Value? && videoDuration.Value? {
          thumbnailTime := Multiply(randomTime.v, videoDuration.v);
        } else {
          thumbnailTime := Null;
        }
      }
    }

    /** The branding title, written to the session cache when the path to it does not throw. */
    method StoreBrandingTitle(json: JsValue, videoId: string) returns (title: JsValue)
      modifies this
      ensures var t := TitleOf(json, videoId);
        && title == (if t.Value? then t.v else Null)
        && session == (if t.Value? then old(session)[GetVideoKey(videoId) := VideoCache(t.v, Undefined)] else old(session))
      ensures local == old(local)
    {
      var brandingTitle := Path(json, [videoId, "titles", "0", "title"]);
      if brandingTitle.Value? {
        title := brandingTitle.v;
        session := session[GetVideoKey(videoId) := VideoCache(title, Undefined)];
      } else {
        title := Null;
      }
    }

    /** Resolves a video's DeArrow title and thumbnail, step by step as the source does.
        `up` holds the network's answers; `fetches` lists the requests made. */
    method HandleDeArrow(videoId: string, up: Upstream) returns (response: BackgroundResponse, fetches: seq<Fetch>)
      modifies this
      ensures var res := Resolve(videoId, old(CacheEntry(videoId)), up);
        && response == DeArrowResponse(res.title, res.thumbnailUri)
        && fetches == res.fetches
        && session == (if res.cacheWrite.Some? then old(session)[GetVideoKey(videoId) := res.cacheWrite.value] else old(session))
      ensures local == old(local)
      ensures old(Valid()) ==> Valid()
    {
      ghost var cached := CacheEntry(videoId);
      var videoKey := GetVideoKey(videoId);
      var title: JsValue := Null;
      var thumbnailTime: JsValue := Null;
      if videoKey in session {
        var record := session[videoKey];
        title := record.deArrowTitle;
        thumbnailTime := record.deArrowThumbnailTime;
      }

      var thumbnailResponse := up.defaultThumbnail;
      fetches := [ThumbnailFetch(videoId, None)];
      var thumbnailUri: Option<string> := None;
      var cachedThumbnailTime: JsValue := Null;
      if thumbnailResponse.bodySize != 0 {
        thumbnailUri := Some(thumbnailResponse.dataUri);
        cachedThumbnailTime := OptionalString(thumbnailResponse.xTimestamp);
      }

      if !Truthy(title) && !Truthy(thumbnailTime) {
        fetches := fetches + [BrandingFetch(Sha256Prefix(up.digest))];
        var json := up.branding.json;
        if up.branding.status == 200 && Truthy(json) {
          thumbnailTime := ReadThumbnailTime(json, videoId);
          if !Truthy(thumbnailTime) && UriTruthy(thumbnailUri) {
            var original := Path(json, [videoId, "thumbnails", "0", "original"]);
            if original.Value? && Truthy(original.v) {
              thumbnailUri := None;
            }
          }
          title := StoreBrandingTitle(json, videoId);
        } else {
          var xTitle := thumbnailResponse.xTitle;
          if xTitle.Some? && xTitle.value != "" {
            title := Str(xTitle.value);
          }
        }
      }
      assert title == BrandingStage(videoId, cached, up).title;
      assert thumbnailUri == BrandingStage(videoId, cached, up).thumbnailUri;

      if || (Truthy(thumbnailTime) && thumbnailResponse.bodySize == 0 && thumbnailResponse.status == 204)
         || (UriTruthy(thumbnailUri) && Truthy(cachedThumbnailTime) && Truthy(thumbnailTime)
             && !StrictEquals(cachedThumbnailTime, thumbnailTime))
      {
        fetches := fetches + [ThumbnailFetch(videoId, Some(thumbnailTime))];
        thumbnailResponse := up.timedThumbnail;
        if thumbnailResponse.bodySize != 0 {
          thumbnailUri := Some(thumbnailResponse.dataUri);
        }
      }

      response := DeArrowResponse(title, thumbnailUri);
    }

    /** The message listener: each request goes to its handler; unknown types get an error. */
    method OnMessage(request: BackgroundRequest, up: Upstream) returns (response: BackgroundResponse, fetches: seq<Fetch>)
      modifies this
      ensures ResponseType(response) == ExpectedResponseType(request)
      ensures request.EchoRequest? ==> response == EchoResponse("Echo!")
      ensures request.UnknownRequest? ==> response == ErrorResponse("Unknown message type.")
      ensures request.IsWatchedRequest? ==> response == IsWatchedResponse(WatchedIn(old(local), request.videoId))
      ensures request.SetWatchedRequest? ==>
        local == old(local)[GetVideoKey(request.videoId) := VideoRecord(request.value)]
      ensures !request.SetWatchedRequest? ==> local == old(local)
      ensures request.DeArrowRequest? ==>
        var res := Resolve(request.videoId, old(CacheEntry(request.videoId)), up);
        && response == DeArrowResponse(res.title, res.thumbnailUri)
        && fetches == res.fetches
        && session == (if res.cacheWrite.Some? then old(session)[GetVideoKey(request.videoId) := res.cacheWrite.value] else old(session))
      ensures !request.DeArrowRequest? ==> session == old(session) && fetches == []
      ensures old(Valid()) ==> Valid()
    {
      fetches := [];
      match request
      case EchoRequest =>
        response := EchoResponse("Echo!");
      case DeArrowRequest(videoId) =>
        response, fetches := HandleDeArrow(videoId, up);
      case IsWatchedRequest(videoId) =>
        response := HandleIsWatched(videoId);
      case SetWatchedRequest(videoId, value) =>
        response := HandleSetWatched(videoId, value);
      case UnknownRequest =>
        response := ErrorResponse("Unknown message type.");
    }
  }
}
