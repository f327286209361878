# extraneous — a verified Dafny model of its core

extraneous is a browser extension for Invidious, an alternative YouTube front end.
This project models the logic at its centre:

- **The background script** (`src/background.ts`).
  - It dispatches the content script's messages: `echo`, `isWatched`, `setWatched` and `deArrow`.
  - It keeps each video's watched state in local storage under `video_<id>`.
  - It resolves a video's DeArrow title and thumbnail. Inputs are a session cache, a default thumbnail request, an optional branding lookup keyed by a SHA-256 hash prefix, and an optional second thumbnail request at a chosen time.
- **The card extractor** (`src/extractor.ts`). It is an ordered field validator over each video card. It also picks an extraction strategy from the pathname.
- **The content script's entry point** (`src/content.ts`). It provides the Invidious site gate, the page classification, and the watched-state lookups.
- **The slop filter**, in both revisions:
  - `src/modules/hideSlop.ts` is the current one;
  - `src/modules/hideslop.ts` is the older one.

  Each hides cards whose title matches a pattern or whose `H:M:S` duration is below a minimum. Both use the same `parseDurationSeconds`.

How the model is built:

- JavaScript semantics that drive the branches are written out in `js.dfy`:
  - truthiness;
  - property access that throws on `null`/`undefined`;
  - `===` between values of different kinds;
  - NaN as `None`;
  - `parseInt`.
- `strings.dfy` gives `startsWith`, `endsWith`, `trim`, `split` and `join`.
- Every network, storage and DOM result is an input value:
  - an `Upstream` holds the replies of the thumbnail and branding services;
  - a `VideoCard` holds what each selector finds.
- Modelling style by part:
  - The DeArrow resolution is specified by the pure function `DeArrow.Resolve`. The imperative `Background.BackgroundScript.HandleDeArrow` reassigns its variables step by step, as the source does, and is proved equal to `Resolve`.
  - The duration loop and the two filter loops are methods with loop invariants.
  - The filters change the `display` of `Dom.Div` objects, and their frames say that nothing else changes.

Behaviour the code has, which its types, settings and comments might suggest otherwise:

- Card extraction has no per-card recovery. `extractFromPage` (`src/extractor.ts:59-77`) does not catch the `VideoParseError` that `extractBasic` throws. One card without a title, channel name, channel link or video link aborts the whole page.
- The `deArrow.trustedOnly` setting (default `true`, `src/config.ts:40`) is never read by `src/background.ts`. The branding title is taken as it comes: no filtering by trust and no `>` unescaping.
- The `VideoCache` type declares `deArrowThumbnailTime` (`src/background.ts:34-37`), but the only write stores `deArrowTitle` alone (`src/background.ts:144-148`). A cache hit therefore never supplies a thumbnail time (`Background.BackgroundScript.CacheHitCarriesNoTime`).
- A 200 branding reply without an entry for the video gives a `null` title. The `X-Title` header is consulted only when the branding reply is unusable (`src/background.ts:157-163`).
- The `X-Timestamp` header (a string) is compared with `!==` against the branding time (a number) at `src/background.ts:176`. The comparison is always true, so a second thumbnail request is made whenever all of these hold: the default thumbnail came back with a body and was kept, it carried a non-empty `X-Timestamp`, and the time is a non-zero number. A time of 0, `null` or NaN does not trigger it (`DeArrowProperties.NumericTimeAlwaysRefetches`).

## Model

| member | source | states |
|---|---|---|
| Js.FalsyValues | src/background.ts:109-176 | the falsy values are exactly `undefined`, `null`, `false`, `0`, NaN and `""` |
| Js.StrictEqualsKinds | src/background.ts:176 | `===` holds only between equal values of one kind: a string never equals a number, NaN equals nothing, arrays and objects are never equal |
| Js.Get | src/background.ts:116-117 | property access throws exactly on `null`/`undefined`; an object gives the field or `undefined`; index `"0"` of an array gives its first item or `undefined` |
| Js.PathThrowsIff | src/background.ts:115-126 | a chained access throws exactly when some step before the last key reaches `null` or `undefined` |
| Js.PathSnoc | src/background.ts:130-131 | extending an access chain by one key is one more access on the value reached |
| Js.OptionalString | src/background.ts:106 | a missing header is `null`; a present one is truthy exactly when non-empty |
| Js.Multiply | src/background.ts:120-122 | the product is a number exactly when both operands convert to numbers, and is then their product; otherwise NaN |
| Js.ToNumber | src/background.ts:120-122 | number conversion yields a number or NaN and leaves numbers unchanged |
| Js.ParseInt | src/modules/hideSlop.ts:62 | `parseInt` is a number exactly when a digit follows the optional sign |
| Js.ParseIntOfDigits | src/modules/hideSlop.ts:62 | a string of decimal digits parses to its decimal value |
| Js.LeadingDigits | src/modules/hideSlop.ts:62 | the digits `parseInt` reads are the longest all-digit prefix |
| Strings.StartsWithIff | src/content.ts:26-32 | `startsWith(p)` holds exactly when the string is `p` followed by something |
| Strings.EndsWithIff | src/content.ts:17-22 | `endsWith(s)` holds exactly when the string is something followed by `s` |
| Strings.Trim | src/extractor.ts:31 | `trim()` is a slice with only whitespace cut from both ends, starts and ends with non-whitespace, and is empty exactly for all-whitespace input |
| Strings.Split | src/modules/hideSlop.ts:60 | `split(":")` yields at least one piece, none containing the separator |
| Strings.JoinSplit | src/modules/hideSlop.ts:60 | joining the pieces of a split gives back the string |
| Strings.SplitJoin | src/modules/hideSlop.ts:60 | splitting a join of separator-free pieces gives back the pieces |
| Duration.ParseDurationSeconds | src/modules/hideSlop.ts:58-65 | the accumulating loop returns the segment sum Σ parseInt(segᵢ)·60^(n-1-i) (`Seconds`) |
| Duration.NaNIffSomeSegmentNaN | src/modules/hideslop.ts:50-57 | the duration is NaN exactly when some segment does not parse |
| Duration.SegmentSumAppend | src/modules/hideSlop.ts:61-63 | one more segment multiplies the earlier value by 60 and adds the new segment |
| Duration.ClockFormat | src/modules/hideSlop.ts:52-65 | `"H:M:S"` is H·3600 + M·60 + S, NaN when any part is |
| Duration.SecondsOnly | src/modules/hideSlop.ts:52-65 | a single digit segment `"SS"` is that many seconds |
| Duration.TenHours | src/modules/hideSlop.ts:58-65 | `"10:00:00"` is 36000 seconds |
| Duration.TenMinutes | src/modules/hideSlop.ts:58-65 | `"00:10:00"` is 600 seconds |
| Duration.NineFiftyNine | src/modules/hideSlop.ts:58-65 | `"00:09:59"` is 599 seconds |
| Duration.FortyFiveSeconds | src/modules/hideSlop.ts:58-65 | `"45"` is 45 seconds |
| DeArrow.ByteHex | src/background.ts:219 | `b.toString(16).padStart(2, "0")` is the two lowercase hex digits of b |
| DeArrow.ByteHexRoundTrip | src/background.ts:219 | reading the two hex digits back gives the byte |
| DeArrow.HexJoin | src/background.ts:218-220 | the joined hex has two characters per byte |
| DeArrow.PrefixIsFirstTwoBytes | src/background.ts:213-222 | the branding key is the hex of the first two digest bytes and always has four hex characters |
| DeArrow.PrefixDeterminesLeadingBytes | src/background.ts:213-222 | two digests give the same key exactly when their first two bytes agree |
| DeArrow.FetchUrl | src/background.ts:76-111 | the thumbnail URL is the endpoint, the id, and `&time=` with the time only when one is given; the branding URL ends in the hash prefix |
| DeArrowProperties.RequestsIssued | src/background.ts:99-186 | the default thumbnail is requested first; branding exactly on a cache miss; a timed thumbnail exactly when the refetch condition holds, and last; one to three requests |
| DeArrowProperties.RefetchReplacesOnlyWithBody | src/background.ts:178-185 | the URI changes after the branding stage only when the timed thumbnail was requested and has a body |
| DeArrowProperties.CachedTitleServed | src/background.ts:88-109 | a cached truthy title is returned unchanged with no branding request and no cache write; with no cached time only the default thumbnail is requested |
| DeArrowProperties.CacheWriteHoldsTitleOnly | src/background.ts:141-152 | a cache write holds the returned title and no thumbnail time, and happens only after a usable branding reply |
| DeArrowProperties.SecondCallServedFromCache | src/background.ts:88-156 | after a call that cached a truthy title, the next call returns it with only the default thumbnail request, whatever the network says |
| DeArrowProperties.TimestampTaken | src/background.ts:115-117 | when the first branding thumbnail exists its `timestamp` is the time, `null` included |
| DeArrowProperties.RandomTimeFallback | src/background.ts:118-122 | with an entry but no first thumbnail, the time is `randomTime * videoDuration` |
| DeArrowProperties.NoEntryNoTime | src/background.ts:115-126 | without an entry for the video the time is `null` |
| DeArrowProperties.DefaultDroppedIff | src/background.ts:128-139 | with a usable reply and a loaded default, no thumbnail is returned exactly when the time is falsy and the first branding thumbnail's `original` is truthy, and then no refetch happens |
| DeArrowProperties.TitleFromBranding | src/background.ts:141-156 | with a usable reply the title is the first branding title and is cached when reachable; otherwise `null` and nothing is cached |
| DeArrowProperties.NoEntryMeansNullTitle | src/background.ts:114-156 | a usable reply lacking the video gives a `null` title and time and no cache write, `X-Title` notwithstanding |
| DeArrowProperties.OutageFallsBackToXTitle | src/background.ts:157-163 | when branding is asked but unusable, a non-empty `X-Title` becomes the title; nothing is cached |
| DeArrowProperties.NumericTimeAlwaysRefetches | src/background.ts:169-177 | with a kept default, an `X-Timestamp` header and a non-zero numeric time, the timed thumbnail is always requested |
| DeArrowProperties.TitleWithRandomTime | src/background.ts:109-156 | a reply with a title and no thumbnails gives that title, time 0.5·600 = 300, the default URI and a cache write |
| DeArrowProperties.OutageWithXTitle | src/background.ts:157-163 | a failed branding reply with `X-Title` "Fallback" and an empty 204 default gives title "Fallback" and no thumbnail |
| DeArrowProperties.OriginalDiscardsDefault | src/background.ts:128-139 | a `null` timestamp with `original` set drops the default thumbnail, with no refetch and a `null` title when `titles` is empty |
| Background.GetVideoKey | src/background.ts:279-281 | the key is `video_` followed by the id |
| Background.VideoKeyInjective | src/background.ts:279-281 | distinct ids give distinct keys, and no key is `config` |
| Background.NeverSetIsUnwatched | src/background.ts:242-254 | a video without a record is not watched |
| Background.SetThenRead | src/background.ts:260-273 | the state set for a video is read back, and every other video keeps its state |
| Background.BackgroundScript.CacheEntry | src/background.ts:88-97 | the cache lookup finds a record exactly when the key is in session storage |
| Background.BackgroundScript.GetRecord | src/background.ts:228-236 | the record is found exactly when the key is in local storage |
| Background.BackgroundScript.HandleIsWatched | src/background.ts:242-254 | replies with the stored watched state, false without a record |
| Background.BackgroundScript.HandleSetWatched | src/background.ts:260-273 | stores `{isWatched: value}` under the video's key, changes nothing else, replies `completed` |
| Background.BackgroundScript.ReadThumbnailTime | src/background.ts:115-126 | the nested try/catch computes `ResolvedTime` |
| Background.BackgroundScript.StoreBrandingTitle | src/background.ts:141-156 | the title is the branding title or `null`, and the session cache gets `{deArrowTitle}` exactly when the title was reachable |
| Background.BackgroundScript.HandleDeArrow | src/background.ts:85-193 | the step-by-step handler replies with `Resolve`'s title and URI, issues its requests, writes its cache entry, keeps local storage and the no-time invariant of the session cache |
| Background.BackgroundScript.OnMessage | src/background.ts:39-65 | each request type is answered with its response type (`echo` → "Echo!", `setWatched` → `completed`) and any other type with "Unknown message type."; `isWatched`, `setWatched` and `deArrow` give their handler's reply, local-storage update, and requests and session-cache write; every other request leaves both storage areas alone |
| Background.BackgroundScript.CacheHitCarriesNoTime | src/background.ts:88-109 | in a cache as the handler writes it, a hit never supplies a time, so the branding service is asked exactly when no truthy title is cached |
| Extractor.NormalizeUrl | src/extractor.ts:54-57 | anything but a string gives `null`; a string is parsed against the page URL |
| Extractor.DurationText | src/extractor.ts:40-42 | a missing or empty duration text is `null`, otherwise the text |
| Extractor.FirstFailureSpec | src/extractor.ts:29-39 | the first failing check is found, with every earlier one passing; none exactly when all pass |
| Extractor.ExtractBasic | src/extractor.ts:25-52 | a card succeeds exactly when title, channel name, channel link and video link are all present; the record carries the non-empty title, the trimmed non-empty channel name, both URLs, the duration rule and the card's element |
| Extractor.ErrorIsFirstMissingField | src/extractor.ts:29-39 | the error raised is that of the first missing field in the order title, channel name, channel link, video link |
| Extractor.ExtractAll | src/extractor.ts:61-73 | extraction succeeds exactly when every card does, with one record per card in card order |
| Extractor.ExtractAllFailure | src/extractor.ts:61-73 | a failed extraction reports the error of the first failing card |
| Extractor.StrategyFor | src/extractor.ts:70-76 | `/watch` selects watch-next, a `/feed` prefix the feed strategy, anything else none |
| Extractor.ExtractFromPage | src/extractor.ts:59-77 | pages without a strategy give an empty list; others extract every card with the strategy |
| Extractor.PageExtraction | src/extractor.ts:59-77 | on an extracting page: one record per card for that card's element, and any card failure aborts with that card's error |
| Content.IsInvidiousIff | src/content.ts:16-23 | the script proceeds exactly when the site name is something followed by "Invidious" |
| Content.Classify | src/content.ts:25-35 | `/watch` is a watch page; otherwise a `/feed` or `/channel/` prefix is a feed; anything else unknown |
| Content.ClassificationAndExtraction | src/content.ts:25-35 | every page the extractor reads is classified, watch pages agree, and `/channel/` pages are feeds for which the extractor returns nothing |
| Content.InjectScript | src/content.ts:16-102 | nothing happens off Invidious; the watch-page handling runs exactly on watch pages with the feature on; one `isWatched` request per feed video, in order, exactly when the feature is on |
| Dom.HideDiv | src/modules/hideSlop.ts:48-50 | the element's display becomes "none" and nothing else changes |
| HideSlop.HideSlopFeed | src/modules/hideSlop.ts:10-42 | a NaN minimum hides nothing; otherwise exactly the targets of cards hidden by the title rule or the duration rule get display "none", the count is the number of such cards, and no other element changes |
| HideSlop.CountHiddenBounds | src/modules/hideSlop.ts:22-39 | the count is at most the number of cards, zero exactly when none is hidden, all exactly when all are |
| HideSlop.EmptyPatternDisablesTitleRule | src/modules/hideSlop.ts:18-20 | with an empty pattern only the duration rule hides |
| HideSlop.DurationRuleIff | src/modules/hideSlop.ts:34-38 | the duration rule hides exactly a present, non-empty duration that parses strictly below the minimum; equal or NaN durations are kept |
| HideSlop.TenMinuteMinimum | src/modules/hideSlop.ts:35 | with minimum "00:10:00", "00:09:59" is hidden and "00:10:00" kept |
| HideSlopPage.HideSlopFeedPage | src/modules/hideslop.ts:9-34 | a NaN minimum hides nothing; otherwise exactly the parents of cards whose title matches or whose duration is below the minimum get display "none", counted, and nothing else changes |
| HideSlopPage.EmptyPatternHidesAll | src/modules/hideslop.ts:16-24 | a pattern that matches every title, as the empty one does, hides every card |
| HideSlopPage.RevisionsAgree | src/modules/hideslop.ts:16-30 | for a non-empty pattern on feed pages both revisions hide the same cards and elements and count the same |

## Left out

- Network I/O, `FileReader` and `browser.storage`: the replies, the data URIs and the storage areas are inputs or fields. `.json()` failing on a malformed body is not modelled.
- SHA-256 and `TextEncoder`: the digest bytes are an input (`Upstream.digest`). Only the hex and prefix step is modelled.
- The regular-expression engine: `RegexTest` is a parameter. An invalid pattern, which would make `new RegExp` throw, is not modelled.
- `URL.parse` is a parameter (`UrlParser`).
- The text a template literal gives for a number is a parameter of `DeArrow.FetchUrl`.
- Floating point: numbers are reals, with NaN as its own value. Rounding, infinities and `-0` are not modelled.
- Js.ToNumber: every string, array and object converts to NaN. JavaScript converts differently: `"600"` to 600, `""` and `" "` to 0, `[]` to 0, `[5]` and `["5"]` to 5. The model differs from JavaScript on those inputs. It agrees for numbers, booleans, `null` and `undefined`, which covers the numbers the branding service sends for `randomTime` and `videoDuration`.
- Js.ParseInt: leading whitespace, `0x` prefixes and radix handling are not modelled.
- Js.Get: the `length` property of strings and arrays and inherited properties are not modelled.
- Js.StrictEquals: two arrays or two objects are never equal. This holds for values obtained separately, as every compared value here is.
- The session write's failure on an exceeded quota is not modelled. The write is taken to succeed.
- Message ordering and concurrency: each handler call is one sequential step.
- The watch page's own `isWatched`/`setWatched` messages, the button, the labels and the blur styling in `src/content.ts` are not modelled. `extractCurrentVideo` and `extractFeedFromPage` are not defined in `src/extractor.ts`; `src/content.ts` imports them from elsewhere. Feed video ids are therefore an input of `Content.InjectScript`.
- Content.InjectScript assumes that `extractCurrentVideo()` (`src/content.ts:39`) and `extractFeedFromPage` (`src/content.ts:84`) return normally. If either throws, the script stops and no feed lookup is sent. The contract nevertheless promises one lookup per feed video whenever the feature is on.
- Configuration loading (`src/config.ts`, `src/popup.ts`, `src/config_popup.ts`, `src/config_popup_data.ts`): the watched flag is an input.
- The DOM presentation modules (`src/modules/deArrow.ts`, `src/modules/dearrow.ts`, `src/modules/watched.ts`, `src/modules/additionalLinks.ts`) and `build.ts` are not part of this model.
- `console.log` of the removed count: the count is returned instead.
- HideSlop.HideSlopFeed requires every card to have a parent element on feed pages. Cards taken from a document always have one: each card element is the parent of a matched `div.video-card-row` (`src/extractor.ts:61-64`), so it is itself inside the document's body. For a detached card, the source computes a `null` target without failing. It throws a TypeError in `hideDiv(null)` (`src/modules/hideSlop.ts:29,36`) only when a rule hides that card. That path is not modelled.
- HideSlopPage.HideSlopFeedPage requires every card to have a parent element, which cards taken from a document always have. For a detached card, the source throws a TypeError in `hideDiv` (`src/modules/hideslop.ts:21,28`) only when a rule hides that card. That path is not modelled.
- A session record that is not an object (which would make the field reads throw) is not modelled. Records are `VideoCache` values.
