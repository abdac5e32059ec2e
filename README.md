# ClipGrab download function, modelled in Dafny

ClipGrab's `download` serverless function is a single stateless HTTP handler.
It accepts only POST. It reads a JSON body with a `url` field and checks that
the field is present and non-empty and that it parses as a URL. It then
classifies the URL by substring tests (YouTube, TikTok, Instagram) and answers
with a fixed mock video record: title, thumbnail, duration, three quality
options and the URL echoed back. Every failure maps to a status code and a
fixed error message. The codes follow RFC 9110: 405 Method Not Allowed
(section 15.5.6), 400 Bad Request (section 15.5.1) and 500 Internal Server
Error (section 15.6.1).

The model has two modules:

- `Text` (`text.dfy`) defines `Contains(s, t)`, "t occurs at some index of s",
  which stands in for `String.prototype.includes`. It also holds the substring
  lemmas the classifier's proofs use.
- `Download` (`download.dfy`) holds the request, response, platform and video
  record datatypes, plus `GetPlatform`, `ExtractVideoInfo` and `Handle`, the
  models of `getPlatform`, `extractVideoInfo` and `handler`.

The source is pure, so every operation is a function.

- The request is `Request(httpMethod, parsed)`.
- `parsed` is the outcome of `JSON.parse(event.body)` followed by destructuring
  `{ url }`. It is either `Throws` or `Parsed(url)`.
  - `Throws` covers malformed JSON. It also covers a body that parses to
    `null`, because destructuring `null` throws.
  - In `Parsed(url)`, `url` is `None` when the field is absent, and also when
    the body parses to some other non-object value.
- `new URL(url)` is a parameter `isValidUrl: string -> bool` of `Handle`. It is
  true exactly when the constructor does not throw.
- `!url` on a string is `Missing`: the field is absent or empty.
- The method test is the source's strict `!==` against `"POST"`, so it is
  case-sensitive: `"post"` is answered with 405.
- The response body is a datatype, `Error(msg)` or `Info(VideoInfo)`, not a
  JSON text.

`getPlatform` keeps its `'shorts'` branch where the source has it. Every string
containing `youtube.com/shorts` also contains `youtube.com`, and that is tested
first, so the branch is dead. `ShortsIsYouTube` proves this, and
`GetPlatform`'s contract states that the result is never `Shorts`.

Because Dafny functions are deterministic, identical requests always get
identical responses. This needs no separate lemma.

## Model

Three plain definitions carry no contract of their own and so have no row:
`Text.Contains` models `String.prototype.includes` (download.js:61-67),
`Download.Missing` models `!url` on a string (download.js:16), and
`Download.PlatformName` gives the strings `getPlatform` returns
(download.js:62-68). The contracts below state their properties.

| member | source | states |
|---|---|---|
| `Text.ContainsPrefix` | your-repo/functions/download/download.js:61-63 | a string that contains `t + u` contains `t`; this is the step that makes a longer pattern's test redundant after a shorter one's |
| `Text.MissingCharNotContained` | your-repo/functions/download/download.js:61-68 | an `includes` test fails when the needle has a character the URL lacks |
| `Download.ShortsIsYouTube` | your-repo/functions/download/download.js:61-64 | every URL containing `youtube.com/shorts` contains `youtube.com`, so the Shorts branch can never be reached |
| `Download.GetPlatform` | your-repo/functions/download/download.js:60-71 | never returns Shorts; returns YouTube iff the URL contains `youtube.com` or `youtu.be`; otherwise TikTok iff it contains `tiktok.com`; otherwise Instagram iff it contains `instagram.com`; returns null iff none of the four substrings occurs |
| `Download.ExtractVideoInfo` | your-repo/functions/download/download.js:73-98 | the record echoes the URL, is titled `"Video from " + platform`, and has the fixed thumbnail, the duration `2:45` and exactly the three qualities 720p, 480p, 360p with their `#download-…` links, in that order |
| `Download.ExtractVideoInfoInjective` | your-repo/functions/download/download.js:73-93 | two records are equal iff they were built from the same URL and platform, so the answer always identifies the platform and the URL |
| `Download.Handle` | your-repo/functions/download/download.js:4-58 | a non-POST method gives 405 "Method not allowed" whatever the body; a POST whose body throws gives 500 "Failed to process the video"; a missing or empty url gives 400 "URL parameter is required" before any URL check; a url failing the URL check gives 400 "Invalid URL format" even when it names a platform; a valid url with no known platform gives 400 "Unsupported platform"; status 200 iff every guard passes, and its body is then the mock record for the URL and its detected platform; the status is always one of 200, 400, 405 and 500; the body is a record iff the status is 200 |
| `Download.YouTubeWatchAnswered` | your-repo/functions/download/download.js:34-49 | a POST of `https://www.youtube.com/watch?v=abc123` that passes the URL check is answered 200 with title "Video from youtube", the three qualities and the URL echoed |
| `Download.TikTokVideoClassified` | your-repo/functions/download/download.js:60-66 | `https://www.tiktok.com/@user/video/123` is classified as TikTok |
| `Download.TikTokVideoAnswered` | your-repo/functions/download/download.js:34-49 | a POST of that TikTok URL that passes the URL check is answered 200 with title "Video from tiktok" |
| `Download.OtherSiteUnsupported` | your-repo/functions/download/download.js:34-41 | a POST of `https://example.com/video` that passes the URL check is answered 400 "Unsupported platform" |

## Left out

- The `axios` and `cheerio` imports (download.js:1-2) are never called, so they are not modelled.
- `console.error` logging (download.js:52, 95) is an I/O side effect only.
- `async`/`await` (download.js:4, 45) is dropped. `extractVideoInfo` does no asynchronous work, so it is a plain function.
- The catch inside `extractVideoInfo` (download.js:94-97) is not modelled. Building an object literal cannot throw, so that catch is unreachable.
- The internals of `JSON.parse` are not modelled. Only its outcome is, as `ParseOutcome`.
- The URL parser behind `new URL` (the WHATWG URL Standard) is not modelled. It is the opaque parameter `isValidUrl`.
- `url` values that are not strings, such as numbers, arrays or objects, are not represented. `Parsed` carries only an optional string.
- `JSON.stringify` of the response body is not modelled. `Body` is structured data.
- HTTP headers and the hosting runtime's `context` argument are not modelled. The handler sets no header, and in particular no `Allow` header on 405.
- JavaScript strings are sequences of UTF-16 code units, and a `url` may hold an unpaired surrogate, such as the one `"\ud800"` in JSON decodes to. A Dafny `string` is a sequence of Unicode scalar values and cannot hold one, so such URLs are out of scope. For every string the model can hold, the results agree: all five needles are ASCII, so an `includes` test on code units and `Contains` on scalar values give the same answer.
