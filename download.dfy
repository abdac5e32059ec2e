/**
 * The `download` serverless function: a POST endpoint that takes a
 * social-media video URL, validates it, classifies it by platform and
 * answers with fixed mock video metadata.
 */
module Download {
  import opened Text

  datatype Option<T> = None | Some(value: T)

  /** Outcome of `JSON.parse(event.body)` followed by destructuring `{ url }`. */
  datatype ParseOutcome =
    | Throws                    // malformed JSON, or a body that parses to `null`
    | Parsed(url: Option<string>) // `url` is absent (None) or a string

  datatype Request = Request(httpMethod: string, parsed: ParseOutcome)

  datatype Platform = YouTube | Shorts | TikTok | Instagram

  datatype Quality = Quality(quality: string, url: string)

  datatype VideoInfo = VideoInfo(
    title: string,
    thumbnail: string,
    duration: string,
    qualities: seq<Quality>,
    url: string)

  datatype Body = Error(msg: string) | Info(info: VideoInfo)

  datatype Response = Response(status: int, body: Body)

  // Status codes, as named in RFC 9110.
  const Ok := 200                  // section 15.3.1
  const BadRequest := 400          // section 15.5.1
  const MethodNotAllowed := 405    // section 15.5.6
  const InternalServerError := 500 // section 15.6.1

  const MethodNotAllowedMsg := "Method not allowed"
  const UrlRequiredMsg := "URL parameter is required"
  const InvalidUrlMsg := "Invalid URL format"
  const UnsupportedMsg := "Unsupported platform"
  const ProcessingFailedMsg := "Failed to process the video"

  const Thumbnail := "https://via.placeholder.com/300x200.png?text=Video+Thumbnail"
  const Duration := "2:45"

  /** The three quality options of every answer, best first. */
  const Qualities := [
    Quality("720p", "#download-720p"),
    Quality("480p", "#download-480p"),
    Quality("360p", "#download-360p")
  ]

  /** The string `getPlatform` returns for each platform. */
  function PlatformName(p: Platform): string
  {
    match p
    case YouTube => "youtube"
    case Shorts => "shorts"
    case TikTok => "tiktok"
    case Instagram => "instagram"
  }

  /** The URL names one of the platforms the detector knows. */
  predicate Supported(url: string) {
    Contains(url, "youtube.com") || Contains(url, "youtu.be")
    || Contains(url, "tiktok.com") || Contains(url, "instagram.com")
  }

  /** A YouTube Shorts URL always contains "youtube.com". */
  lemma ShortsIsYouTube(url: string)
    requires Contains(url, "youtube.com/shorts")
    ensures Contains(url, "youtube.com")
  {
    assert "youtube.com/shorts" == "youtube.com" + "/shorts";
    ContainsPrefix(url, "youtube.com", "/shorts");
  }

  /**
   * `getPlatform`: substring tests in a fixed priority order. The
   * Shorts test is kept where the source has it; its guard already
   * implies the YouTube test's, so the branch is never taken.
   */
  function GetPlatform(url: string): (r: Option<Platform>)
    ensures r != Some(Shorts)
    ensures r == Some(YouTube) <==> Contains(url, "youtube.com") || Contains(url, "youtu.be")
    ensures r == Some(TikTok) <==>
      !Contains(url, "youtube.com") && !Contains(url, "youtu.be") && Contains(url, "tiktok.com")
    ensures r == Some(Instagram) <==>
      !Contains(url, "youtube.com") && !Contains(url, "youtu.be") && !Contains(url, "tiktok.com")
      && Contains(url, "instagram.com")
    ensures r == None <==> !Supported(url)
  {
    if Contains(url, "youtube.com") || Contains(url, "youtu.be") then
      Some(YouTube)
    else if Contains(url, "youtube.com/shorts") then
      ShortsIsYouTube(url);
      assert false;
      Some(Shorts)
    else if Contains(url, "tiktok.com") then
      Some(TikTok)
    else if Contains(url, "instagram.com") then
      Some(Instagram)
    else
      None
  }

  /** `extractVideoInfo`: the mock record built from the URL and the platform. */
  function ExtractVideoInfo(url: string, platform: Platform): (info: VideoInfo)
    ensures info.url == url
    ensures info.title == "Video from " + PlatformName(platform)
    ensures info.thumbnail == Thumbnail && info.duration == Duration
    ensures |info.qualities| == 3
    ensures info.qualities[0] == Quality("720p", "#download-720p")
    ensures info.qualities[1] == Quality("480p", "#download-480p")
    ensures info.qualities[2] == Quality("360p", "#download-360p")
  {
    VideoInfo("Video from " + PlatformName(platform), Thumbnail, Duration, Qualities, url)
  }

  /** The record determines both of its inputs: the URL is echoed and the title names the platform. */
  lemma {:induction false} ExtractVideoInfoInjective(u1: string, p1: Platform, u2: string, p2: Platform)
    ensures ExtractVideoInfo(u1, p1) == ExtractVideoInfo(u2, p2) <==> u1 == u2 && p1 == p2
  {
    if ExtractVideoInfo(u1, p1) == ExtractVideoInfo(u2, p2) {
      var prefix := "Video from ";
      var t1, t2 := prefix + PlatformName(p1), prefix + PlatformName(p2);
      assert t1 == t2;
      assert PlatformName(p1) == t1[|prefix|..];
      assert PlatformName(p2) == t2[|prefix|..];
    }
  }

  /** `!url` for a string: absent or empty. */
  predicate Missing(url: Option<string>) {
    url == None || url == Some("")
  }

  /**
   * `handler`: the validation ladder. Each guard answers before the next
   * one is considered; `isValidUrl` stands for `new URL(s)` not throwing.
   */
  function Handle(req: Request, isValidUrl: string -> bool): (r: Response)
    ensures req.httpMethod != "POST" ==> r == Response(MethodNotAllowed, Error(MethodNotAllowedMsg))
    ensures req.httpMethod == "POST" && req.parsed == Throws ==>
      r == Response(InternalServerError, Error(ProcessingFailedMsg))
    ensures req.httpMethod == "POST" && req.parsed.Parsed? && Missing(req.parsed.url) ==>
      r == Response(BadRequest, Error(UrlRequiredMsg))
    ensures (req.httpMethod == "POST" && req.parsed.Parsed? && !Missing(req.parsed.url)
             && !isValidUrl(req.parsed.url.value)) ==>
      r == Response(BadRequest, Error(InvalidUrlMsg))
    ensures (req.httpMethod == "POST" && req.parsed.Parsed? && !Missing(req.parsed.url)
             && isValidUrl(req.parsed.url.value) && !Supported(req.parsed.url.value)) ==>
      r == Response(BadRequest, Error(UnsupportedMsg))
    ensures r.status == MethodNotAllowed <==> req.httpMethod != "POST"
    ensures r.status == InternalServerError <==> req.httpMethod == "POST" && req.parsed == Throws
    ensures r.status == Ok <==>
      req.httpMethod == "POST" && req.parsed.Parsed? && !Missing(req.parsed.url)
      && isValidUrl(req.parsed.url.value) && Supported(req.parsed.url.value)
    ensures r.status in {Ok, BadRequest, MethodNotAllowed, InternalServerError}
    ensures r.body.Info? <==> r.status == Ok
    ensures r.status == Ok ==>
      r.body.info == ExtractVideoInfo(req.parsed.url.value, GetPlatform(req.parsed.url.value).value)
  {
    if req.httpMethod != "POST" then
      Response(MethodNotAllowed, Error(MethodNotAllowedMsg))
    else
      match req.parsed
      case Throws => Response(InternalServerError, Error(ProcessingFailedMsg))
      case Parsed(url) =>
        if Missing(url) then
          Response(BadRequest, Error(UrlRequiredMsg))
        else if !isValidUrl(url.value) then
          Response(BadRequest, Error(InvalidUrlMsg))
        else
          match GetPlatform(url.value)
          case None => Response(BadRequest, Error(UnsupportedMsg))
          case Some(platform) => Response(Ok, Info(ExtractVideoInfo(url.value, platform)))
  }

  /** A YouTube watch page is answered with its mock record. */
  lemma YouTubeWatchAnswered(isValidUrl: string -> bool)
    requires isValidUrl("https://www.youtube.com/watch?v=abc123")
    ensures var url := "https://www.youtube.com/watch?v=abc123";
      Handle(Request("POST", Parsed(Some(url))), isValidUrl)
      == Response(Ok, Info(VideoInfo("Video from youtube", Thumbnail, Duration, Qualities, url)))
  {
    assert "https://www.youtube.com/watch?v=abc123" == "https://www." + "youtube.com" + "/watch?v=abc123";
    OccursBetween("https://www.", "youtube.com", "/watch?v=abc123");
  }

  /** A TikTok video URL is classified as TikTok. */
  lemma TikTokVideoClassified()
    ensures GetPlatform("https://www.tiktok.com/@user/video/123") == Some(TikTok)
  {
    var url := "https://www.tiktok.com/@user/video/123";
    MissingCharNotContained(url, "youtube.com", 0);
    MissingCharNotContained(url, "youtu.be", 0);
    assert url == "https://www." + "tiktok.com" + "/@user/video/123";
    OccursBetween("https://www.", "tiktok.com", "/@user/video/123");
  }

  /** A TikTok video page is answered with a record titled for TikTok. */
  lemma TikTokVideoAnswered(isValidUrl: string -> bool)
    requires isValidUrl("https://www.tiktok.com/@user/video/123")
    ensures var url := "https://www.tiktok.com/@user/video/123";
      Handle(Request("POST", Parsed(Some(url))), isValidUrl)
      == Response(Ok, Info(VideoInfo("Video from tiktok", Thumbnail, Duration, Qualities, url)))
  {
    TikTokVideoClassified();
  }

  /** A well-formed URL of another site is refused as unsupported. */
  lemma OtherSiteUnsupported(isValidUrl: string -> bool)
    requires isValidUrl("https://example.com/video")
    ensures Handle(Request("POST", Parsed(Some("https://example.com/video"))), isValidUrl)
      == Response(BadRequest, Error(UnsupportedMsg))
  {
    var url := "https://example.com/video";
    MissingCharNotContained(url, "youtube.com", 0);
    MissingCharNotContained(url, "youtu.be", 0);
    MissingCharNotContained(url, "tiktok.com", 2);
    MissingCharNotContained(url, "instagram.com", 5);
  }
}
