/** What the DeArrow resolution promises, proved about `DeArrow.Resolve`. */
module DeArrowProperties {
  import opened Js
  import opened DeArrow

  // ---------------------------------------------------------------------------
  // Requests

  /** The default thumbnail is always requested first; the branding service only on a
      cache miss; a timed thumbnail only when the refetch condition holds, and last. */
  lemma RequestsIssued(videoId: string, cached: Option<VideoCache>, up: Upstream)
    ensures var res := Resolve(videoId, cached, up);
      && 1 <= |res.fetches| <= 3
      && res.fetches[0] == ThumbnailFetch(videoId, None)
      && (BrandingFetch(Sha256Prefix(up.digest)) in res.fetches <==> ConsultsBranding(cached))
      && |res.fetches| == 1 + (if ConsultsBranding(cached) then 1 else 0) + (if Refetches(videoId, cached, up) then 1 else 0)
      && (Refetches(videoId, cached, up) <==> res.fetches[|res.fetches| - 1] == ThumbnailFetch(videoId, Some(res.thumbnailTime)))
  {
  }

  /** The thumbnail URI changes after the branding stage only when a timed thumbnail was
      requested and came back with a body. */
  lemma RefetchReplacesOnlyWithBody(videoId: string, cached: Option<VideoCache>, up: Upstream)
    ensures var res := Resolve(videoId, cached, up);
      var staged := BrandingStage(videoId, cached, up);
      res.thumbnailUri != staged.thumbnailUri ==>
        Refetches(videoId, cached, up) && up.timedThumbnail.bodySize != 0
        && res.thumbnailUri == Some(up.timedThumbnail.dataUri)
  {
  }

  // ---------------------------------------------------------------------------
  // The session cache

  /** A cached truthy title is returned as is and the branding service is not asked;
      with no cached time (as every entry this resolver writes) the default thumbnail
      is the only request. */
  lemma CachedTitleServed(videoId: string, c: VideoCache, up: Upstream)
    requires Truthy(c.deArrowTitle)
    ensures var res := Resolve(videoId, Some(c), up);
      && res.title == c.deArrowTitle
      && res.cacheWrite.None?
      && BrandingFetch(Sha256Prefix(up.digest)) !in res.fetches
      && (c.deArrowThumbnailTime == Undefined ==>
            res.fetches == [ThumbnailFetch(videoId, None)] && res.thumbnailUri == DefaultUri(up.defaultThumbnail))
  {
    var res := Resolve(videoId, Some(c), up);
    assert !ConsultsBranding(Some(c));
    assert res.fetches[0] == ThumbnailFetch(videoId, None);
    if Refetches(videoId, Some(c), up) {
      assert |res.fetches| == 2 && res.fetches[1].ThumbnailFetch?;
    }
  }

  /** A cache write stores the title only, never a thumbnail time. */
  lemma CacheWriteHoldsTitleOnly(videoId: string, cached: Option<VideoCache>, up: Upstream)
    ensures var res := Resolve(videoId, cached, up);
      res.cacheWrite.Some? ==>
        && res.cacheWrite.value.deArrowThumbnailTime == Undefined
        && res.cacheWrite.value.deArrowTitle == res.title
        && ConsultsBranding(cached) && BrandingUsable(up.branding)
  {
  }

  /** A second request for the same video, after the first one cached a truthy title,
      returns that title from the cache whatever the network now says. */
  lemma SecondCallServedFromCache(videoId: string, cached: Option<VideoCache>, up1: Upstream, up2: Upstream)
    requires Resolve(videoId, cached, up1).cacheWrite.Some?
    requires Truthy(Resolve(videoId, cached, up1).title)
    ensures var first := Resolve(videoId, cached, up1);
      var second := Resolve(videoId, first.cacheWrite, up2);
      && second.title == first.title
      && second.cacheWrite.None?
      && second.fetches == [ThumbnailFetch(videoId, None)]
  {
    var first := Resolve(videoId, cached, up1);
    CacheWriteHoldsTitleOnly(videoId, cached, up1);
    CachedTitleServed(videoId, first.cacheWrite.value, up2);
  }

  // ---------------------------------------------------------------------------
  // The thumbnail time

  /** When the first branding thumbnail exists, its `timestamp` is the time, whatever it
      holds (null included). */
  lemma TimestampTaken(json: JsValue, videoId: string, thumbnail: JsValue)
    requires Path(json, [videoId, "thumbnails", "0"]) == Value(thumbnail)
    requires !Nullish(thumbnail)
    ensures ResolvedTime(json, videoId) == Get(thumbnail, "timestamp").v
  {
    PathSnoc(json, [videoId, "thumbnails", "0"], "timestamp");
    assert [videoId, "thumbnails", "0"] + ["timestamp"] == [videoId, "thumbnails", "0", "timestamp"];
  }

  /** When the video's entry exists but has no first thumbnail, the time is
      `randomTime * videoDuration`. */
  lemma RandomTimeFallback(json: JsValue, videoId: string, entry: JsValue)
    requires Get(json, videoId) == Value(entry) && !Nullish(entry)
    requires var t := Path(json, [videoId, "thumbnails", "0"]); t.Thrown? || Nullish(t.v)
    ensures ResolvedTime(json, videoId) == Multiply(Get(entry, "randomTime").v, Get(entry, "videoDuration").v)
  {
    PathSnoc(json, [videoId, "thumbnails", "0"], "timestamp");
    assert [videoId, "thumbnails", "0"] + ["timestamp"] == [videoId, "thumbnails", "0", "timestamp"];
    assert TimestampOf(json, videoId).Thrown?;
    PathSnoc(json, [videoId], "randomTime");
    PathSnoc(json, [videoId], "videoDuration");
    assert [videoId] + ["randomTime"] == [videoId, "randomTime"];
    assert [videoId] + ["videoDuration"] == [videoId, "videoDuration"];
    assert Path(json, [videoId]) == Value(entry) by {
      assert [videoId][1..] == [];
    }
  }

  /** Without an entry for the video the time is null. */
  lemma NoEntryNoTime(json: JsValue, videoId: string)
    requires var e := Get(json, videoId); e.Thrown? || Nullish(e.v)
    ensures ResolvedTime(json, videoId) == Null
  {
    assert Path(json, [videoId]) == Path(json, [videoId, "randomTime"][..1]) by {
      assert [videoId, "randomTime"][..1] == [videoId];
    }
    PathThrowsIff(json, [videoId, "randomTime"]);
    assert [videoId, "randomTime"][..1] == [videoId];
    assert [videoId][1..] == [];
    assert Path(json, [videoId, "randomTime"]).Thrown? by {
      assert Path(json, [videoId, "randomTime"][..1]) == Get(json, videoId);
    }
    PathThrowsIff(json, [videoId, "thumbnails", "0", "timestamp"]);
    assert [videoId, "thumbnails", "0", "timestamp"][..1] == [videoId];
    assert TimestampOf(json, videoId).Thrown?;
  }

  // ---------------------------------------------------------------------------
  // The thumbnail URI

  /** With a usable branding reply and a loaded default thumbnail, the reply carries no
      thumbnail exactly when no time was found and the first branding thumbnail asks for
      the original; in that case no second thumbnail request is made. */
  lemma DefaultDroppedIff(videoId: string, cached: Option<VideoCache>, up: Upstream)
    requires ConsultsBranding(cached) && BrandingUsable(up.branding)
    requires UriTruthy(DefaultUri(up.defaultThumbnail))
    ensures var res := Resolve(videoId, cached, up);
      var original := OriginalOf(up.branding.json, videoId);
      && (res.thumbnailUri.None? <==> !Truthy(res.thumbnailTime) && original.Value? && Truthy(original.v))
      && (res.thumbnailUri.None? ==> !Refetches(videoId, cached, up))
  {
  }

  // ---------------------------------------------------------------------------
  // The title

  /** With a usable branding reply the title is the first branding title when the path
      to it does not throw (and only then is it cached), null otherwise; the `X-Title`
      header is not consulted. */
  lemma TitleFromBranding(videoId: string, cached: Option<VideoCache>, up: Upstream)
    requires ConsultsBranding(cached) && BrandingUsable(up.branding)
    ensures var res := Resolve(videoId, cached, up);
      var t := TitleOf(up.branding.json, videoId);
      && (t.Value? ==> res.title == t.v && res.cacheWrite == Some(VideoCache(t.v, Undefined)))
      && (t.Thrown? ==> res.title == Null && res.cacheWrite.None?)
  {
  }

  /** A usable branding reply without an entry for the video gives a null title and a
      null time, even when the thumbnail service sent an `X-Title`. */
  lemma NoEntryMeansNullTitle(videoId: string, cached: Option<VideoCache>, up: Upstream)
    requires ConsultsBranding(cached) && BrandingUsable(up.branding)
    requires up.branding.json.Obj? && videoId !in up.branding.json.fields
    ensures var res := Resolve(videoId, cached, up);
      res.title == Null && res.thumbnailTime == Null && res.cacheWrite.None?
  {
    var json := up.branding.json;
    NoEntryNoTime(json, videoId);
    PathThrowsIff(json, [videoId, "titles", "0", "title"]);
    assert [videoId, "titles", "0", "title"][..1] == [videoId];
    assert [videoId][1..] == [];
    assert Path(json, [videoId]) == Value(Undefined);
  }

  /** When the branding service is asked but its reply is not usable, a non-empty
      `X-Title` from the default thumbnail becomes the title; nothing is cached and the
      time stays what the cache had. */
  lemma OutageFallsBackToXTitle(videoId: string, cached: Option<VideoCache>, up: Upstream)
    requires ConsultsBranding(cached) && !BrandingUsable(up.branding)
    ensures var res := Resolve(videoId, cached, up);
      var x := up.defaultThumbnail.xTitle;
      && res.title == (if x.Some? && x.value != "" then Str(x.value) else CachedTitle(cached))
      && res.cacheWrite.None?
      && res.thumbnailTime == CachedTime(cached)
  {
  }

  // ---------------------------------------------------------------------------
  // The refetch condition

  /** The `X-Timestamp` header is a string and the branding time a number, so `!==`
      always holds: whenever both are present and the default thumbnail was kept, the
      timed thumbnail is requested, even when the header spells the same number. */
  lemma NumericTimeAlwaysRefetches(videoId: string, cached: Option<VideoCache>, up: Upstream, n: real)
    requires UriTruthy(DefaultUri(up.defaultThumbnail))
    requires up.defaultThumbnail.xTimestamp.Some? && up.defaultThumbnail.xTimestamp.value != ""
    requires BrandingStage(videoId, cached, up).thumbnailTime == Num(n) && n != 0.0
    ensures Refetches(videoId, cached, up)
    ensures Resolve(videoId, cached, up).fetches[|Resolve(videoId, cached, up).fetches| - 1]
      == ThumbnailFetch(videoId, Some(Num(n)))
  {
  }

  // ---------------------------------------------------------------------------
  // Scenarios

  const Id := "abc"

  function Reply(status: int, bodySize: nat, xTimestamp: Option<string>, xTitle: Option<string>): ThumbnailReply {
    ThumbnailReply(status, bodySize, "data:image/webp;base64,AAAA", xTimestamp, xTitle)
  }

  /** An entry with a title, no branding thumbnails, and a random time of half the video. */
  lemma TitleWithRandomTime(digest: seq<Byte>, timed: ThumbnailReply)
    ensures var entry := Obj(map["titles" := Arr([Obj(map["title" := Str("Real Title")])]),
                                 "thumbnails" := Arr([]),
                                 "randomTime" := Num(0.5),
                                 "videoDuration" := Num(600.0)]);
      var up := Upstream(digest, Reply(200, 10, None, None),
                         BrandingReply(200, Obj(map[Id := entry])), timed);
      var res := Resolve(Id, None, up);
      && res.title == Str("Real Title")
      && res.thumbnailTime == Num(300.0)
      && res.thumbnailUri == Some("data:image/webp;base64,AAAA")
      && res.cacheWrite == Some(VideoCache(Str("Real Title"), Undefined))
      && res.fetches == [ThumbnailFetch(Id, None), BrandingFetch(Sha256Prefix(digest))]
  {
    var entry := Obj(map["titles" := Arr([Obj(map["title" := Str("Real Title")])]),
                         "thumbnails" := Arr([]),
                         "randomTime" := Num(0.5),
                         "videoDuration" := Num(600.0)]);
    var json := Obj(map[Id := entry]);
    var thumbs := Path(json, [Id, "thumbnails", "0"]);
    assert Get(json, Id) == Value(entry);
    assert Path(entry, ["thumbnails", "0"]) == Value(Undefined) by {
      assert Get(entry, "thumbnails") == Value(Arr([]));
      assert ["thumbnails", "0"][1..] == ["0"];
      assert ["0"][1..] == [];
    }
    assert thumbs == Value(Undefined) by {
      assert [Id, "thumbnails", "0"][1..] == ["thumbnails", "0"];
    }
    RandomTimeFallback(json, Id, entry);
    assert Multiply(Num(0.5), Num(600.0)) == Num(300.0);
    assert TitleOf(json, Id) == Value(Str("Real Title")) by {
      var named := Obj(map["title" := Str("Real Title")]);
      var titles := Arr([named]);
      assert Get(entry, "titles") == Value(titles);
      assert [Id, "titles", "0", "title"][1..] == ["titles", "0", "title"];
      assert ["titles", "0", "title"][1..] == ["0", "title"];
      assert ["0", "title"][1..] == ["title"];
      assert ["title"][1..] == [];
      assert Path(named, ["title"]) == Value(Str("Real Title"));
      assert Get(titles, "0") == Value(named);
      assert Path(titles, ["0", "title"]) == Value(Str("Real Title"));
      assert Path(entry, ["titles", "0", "title"]) == Value(Str("Real Title"));
    }
  }

  /** The branding service is down: the thumbnail service's `X-Title` is the title, and
      an empty 204 default thumbnail leaves no thumbnail at all. */
  lemma OutageWithXTitle(digest: seq<Byte>, timed: ThumbnailReply)
    ensures var up := Upstream(digest, Reply(204, 0, None, Some("Fallback")),
                               BrandingReply(503, Null), timed);
      var res := Resolve(Id, None, up);
      && res.title == Str("Fallback")
      && res.thumbnailUri.None?
      && res.cacheWrite.None?
      && res.fetches == [ThumbnailFetch(Id, None), BrandingFetch(Sha256Prefix(digest))]
  {
  }

  /** A null branding timestamp with `original` set discards the default thumbnail and
      makes no second thumbnail request. */
  lemma OriginalDiscardsDefault(digest: seq<Byte>, timed: ThumbnailReply)
    ensures var entry := Obj(map["titles" := Arr([]),
                                 "thumbnails" := Arr([Obj(map["timestamp" := Null, "original" := Bool(true)])])]);
      var up := Upstream(digest, Reply(200, 10, Some("12.5"), None),
                         BrandingReply(200, Obj(map[Id := entry])), timed);
      var res := Resolve(Id, None, up);
      && res.thumbnailUri.None?
      && res.thumbnailTime == Null
      && res.title == Null
      && res.cacheWrite.None?
      && res.fetches == [ThumbnailFetch(Id, None), BrandingFetch(Sha256Prefix(digest))]
  {
    var thumb := Obj(map["timestamp" := Null, "original" := Bool(true)]);
    var entry := Obj(map["titles" := Arr([]), "thumbnails" := Arr([thumb])]);
    var json := Obj(map[Id := entry]);
    assert Path(json, [Id, "thumbnails", "0"]) == Value(thumb) by {
      assert [Id, "thumbnails", "0"][1..] == ["thumbnails", "0"];
      assert ["thumbnails", "0"][1..] == ["0"];
      assert ["0"][1..] == [];
    }
    TimestampTaken(json, Id, thumb);
    PathSnoc(json, [Id, "thumbnails", "0"], "original");
    assert [Id, "thumbnails", "0"] + ["original"] == [Id, "thumbnails", "0", "original"];
    assert TitleOf(json, Id) == Thrown by {
      assert [Id, "titles", "0", "title"][1..] == ["titles", "0", "title"];
      assert ["titles", "0", "title"][1..] == ["0", "title"];
      assert ["0", "title"][1..] == ["title"];
      assert ["title"][1..] == [];
      assert Path(Undefined, ["title"]) == Thrown;
      assert Get(Arr([]), "0") == Value(Undefined);
      assert Path(Arr([]), ["0", "title"]) == Thrown;
      assert Get(entry, "titles") == Value(Arr([]));
      assert Path(entry, ["titles", "0", "title"]) == Thrown;
    }
  }
}
