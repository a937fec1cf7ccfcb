/** The pure decisions of the Instagram publisher: its configuration check, the
    video classifier, the mode dispatch, carousel validation, the parameter maps of
    the four kinds of container, the reading of a status reply, and its messages. */
module Media {
  import opened Wrappers
  import opened Text
  import opened GraphApi

  /** The credentials the publisher reads from its configuration provider. */
  datatype Config = Config(accessToken: string, userId: string)

  /** The publisher's input (`PublishPayload`); `None` is an absent field. */
  datatype Payload = Payload(
    content: string,
    mediaUrls: Option<seq<string>>,
    mediaType: Option<string>,
    published: Option<bool>,
    coverUrl: Option<string>,
    shareToFeed: Option<bool>,
    locationId: Option<string>)

  /** The publisher's result (`PublishResult`). */
  datatype PublishResult = PublishResult(externalId: string, detail: string)

  /** The three Instagram publishing modes. */
  datatype Mode = Carousel | Reels | Stories

  /** Why an operation threw: each exception the publisher raises, identified by its
      cause; `Message` renders the text it carries. */
  datatype Failure =
    | ConfigIncomplete(missing: seq<string>)
    | InvalidMediaType(mediaType: string)
    | CarouselUrlsRequired
    | CarouselTooMany
    | CarouselImagesOnly
    | ReelsUrlRequired
    | StoriesUrlRequired
    | ApiFailure(reason: string)
    | ContainerFailed(container: string, status: string)
    | ContainerNotReady(container: string, maxAttempts: nat)

  /** A JavaScript truthiness test on an optional string: present and non-empty. */
  predicate Truthy(s: Option<string>)
  {
    s.Some? && s.value != ""
  }

  // ---------------------------------------------------------------- configuration

  /** The configuration provider's completeness check: both credentials are set. */
  predicate ConfigValid(cfg: Config)
  {
    cfg.accessToken != "" && cfg.userId != ""
  }

  /** The names of the missing credentials, in the order the message lists them. */
  function MissingConfig(cfg: Config): (missing: seq<string>)
    ensures "access token" in missing <==> cfg.accessToken == ""
    ensures "Instagram User ID" in missing <==> cfg.userId == ""
    ensures missing == [] <==> ConfigValid(cfg)
    ensures |missing| == 2 ==> missing == ["access token", "Instagram User ID"]
  {
    (if cfg.accessToken == "" then ["access token"] else [])
    + (if cfg.userId == "" then ["Instagram User ID"] else [])
  }


  // ---------------------------------------------------------------- video classifier

  const VideoExtensions: seq<string> := [".mp4", ".mov", ".avi", ".mkv", ".webm", ".flv"]

  /** A URL is taken for a video when its lower-cased form contains one of the video
      extensions anywhere, not only at its end. */
  predicate IsVideoUrl(url: string)
  {
    var lowerUrl := Lower(url);
    exists k | 0 <= k < |VideoExtensions| :: Contains(lowerUrl, VideoExtensions[k])
  }

  // ---------------------------------------------------------------- mode dispatch

  /** The wire name of a mode. */
  function ModeName(mode: Mode): (name: string)
  {
    match mode
    case Carousel => "CAROUSEL"
    case Reels => "REELS"
    case Stories => "STORIES"
  }

  /** The requested media type, with an absent or empty one read as `CAROUSEL`. */
  function EffectiveMediaType(mediaType: Option<string>): (name: string)
    ensures name != ""
    ensures !Truthy(mediaType) ==> name == "CAROUSEL"
    ensures Truthy(mediaType) ==> name == mediaType.value
  {
    if Truthy(mediaType) then mediaType.value else ModeName(Carousel)
  }

  /** Chooses the publishing mode, or rejects an unknown media type. */
  function SelectMode(mediaType: Option<string>): (mode: Result<Mode, Failure>)
  {
    var name := EffectiveMediaType(mediaType);
    if name == ModeName(Carousel) then Ok(Carousel)
    else if name == ModeName(Reels) then Ok(Reels)
    else if name == ModeName(Stories) then Ok(Stories)
    else Err(InvalidMediaType(name))
  }

  /** The mode dispatch: an absent or empty type is `CAROUSEL`, the three known
      names select their mode, and every other name is rejected. */
  lemma SelectModeCases(mediaType: Option<string>)
    ensures var r := SelectMode(mediaType);
            && (r.Ok? <==> EffectiveMediaType(mediaType) in {"CAROUSEL", "REELS", "STORIES"})
            && (r.Ok? ==> ModeName(r.value) == EffectiveMediaType(mediaType))
            && (r.Err? ==> r.error == InvalidMediaType(EffectiveMediaType(mediaType)))
            && (!Truthy(mediaType) ==> r == Ok(Carousel))
  {
  }

  // ---------------------------------------------------------------- validation

  const MaxCarouselItems: nat := 10

  /** Some URL of the list is classified as a video. */
  function AnyVideo(urls: seq<string>): (r: bool)
    ensures r <==> exists i :: 0 <= i < |urls| && IsVideoUrl(urls[i])
  {
    if urls == [] then false
    else if IsVideoUrl(urls[0]) then true
    else
      var rest := AnyVideo(urls[1..]);
      assert forall i :: 1 <= i < |urls| ==> urls[i] == urls[1..][i - 1];
      rest
  }

  /** A media list is present and non-empty. */
  predicate HasMedia(urls: Option<seq<string>>)
  {
    urls.Some? && |urls.value| > 0
  }

  /** The error a carousel request is rejected with before any remote call, checked
      in the order: missing list, too many items, a video among them. */
  function CarouselError(urls: Option<seq<string>>): (err: Option<Failure>)
  {
    if !HasMedia(urls) then Some(CarouselUrlsRequired)
    else if |urls.value| > MaxCarouselItems then Some(CarouselTooMany)
    else if AnyVideo(urls.value) then Some(CarouselImagesOnly)
    else None
  }

  /** Carousel validation: the list must be present and non-empty, hold at most
      ten URLs and no video, and the first violated rule names the error. */
  lemma CarouselErrorCases(urls: Option<seq<string>>)
    ensures var err := CarouselError(urls);
            && (err.None? <==>
              HasMedia(urls) && |urls.value| <= MaxCarouselItems
              && forall i :: 0 <= i < |urls.value| ==> !IsVideoUrl(urls.value[i]))
            && (!HasMedia(urls) ==> err == Some(CarouselUrlsRequired))
            && (HasMedia(urls) && |urls.value| > MaxCarouselItems ==> err == Some(CarouselTooMany))
            && (HasMedia(urls) && |urls.value| <= MaxCarouselItems && err.Some? ==>
              err == Some(CarouselImagesOnly))
  {
  }

  // ---------------------------------------------------------------- container parameters

  /** `String(b)` for a boolean. */
  function BoolString(b: bool): (text: string)
  {
    if b then "true" else "false"
  }

  /** The `share_to_feed` field: `'true'` when the flag is absent. */
  function ShareToFeedField(shareToFeed: Option<bool>): (field: string)
    ensures field == "false" <==> shareToFeed == Some(false)
    ensures field == "true" <==> shareToFeed != Some(false)
  {
    match shareToFeed
    case None => "true"
    case Some(b) => BoolString(b)
  }

  /** The parameters of an image container: a carousel child when `isItem`, otherwise
      a single image post that carries its own caption and location. */
  function ItemParams(cfg: Config, url: string, isItem: bool, caption: Option<string>,
                      locationId: Option<string>): (fields: Params)
  {
    var params := map["access_token" := cfg.accessToken, "image_url" := url, "media_type" := "IMAGE"];
    var params := params["is_carousel_item" := BoolString(isItem)];
    var params := if Truthy(caption) && !isItem then params["caption" := caption.value] else params;
    var params := if Truthy(locationId) && !isItem then params["location_id" := locationId.value] else params;
    params
  }

  /** The fields of an image container: `caption` and `location_id` only on a
      single image post and only when non-empty. */
  lemma ItemParamsFields(cfg: Config, url: string, isItem: bool, caption: Option<string>,
                         locationId: Option<string>)
    ensures var params := ItemParams(cfg, url, isItem, caption, locationId);
            && params.Keys ==
              {"access_token", "image_url", "media_type", "is_carousel_item"}
              + (if Truthy(caption) && !isItem then {"caption"} else {})
              + (if Truthy(locationId) && !isItem then {"location_id"} else {})
            && params["access_token"] == cfg.accessToken
            && params["image_url"] == url && params["media_type"] == "IMAGE"
            && params["is_carousel_item"] == (if isItem then "true" else "false")
            && ("caption" in params ==> params["caption"] == caption.value)
            && ("location_id" in params ==> params["location_id"] == locationId.value)
  {
  }

  /** The parameters of the image containers of a list of URLs, in list order. */
  function ItemParamsList(cfg: Config, urls: seq<string>, isItem: bool, caption: Option<string>,
                          locationId: Option<string>): (list: seq<Params>)
    ensures |list| == |urls|
    ensures forall i :: 0 <= i < |urls| ==> list[i] == ItemParams(cfg, urls[i], isItem, caption, locationId)
  {
    if urls == [] then []
    else [ItemParams(cfg, urls[0], isItem, caption, locationId)] + ItemParamsList(cfg, urls[1..], isItem, caption, locationId)
  }

  /** The parameters of a Reels container. */
  function ReelsParams(cfg: Config, url: string, p: Payload): (fields: Params)
  {
    var params := map["access_token" := cfg.accessToken, "video_url" := url,
                      "media_type" := "REELS", "caption" := p.content];
    var params := if Truthy(p.coverUrl) then params["cover_url" := p.coverUrl.value] else params;
    var params := params["share_to_feed" := ShareToFeedField(p.shareToFeed)];
    var params := if Truthy(p.locationId) then params["location_id" := p.locationId.value] else params;
    params
  }

  /** The fields of a Reels container: `share_to_feed` is `'true'` unless the flag
      is `false`, `cover_url` and `location_id` only when non-empty. */
  lemma ReelsParamsFields(cfg: Config, url: string, p: Payload)
    ensures var params := ReelsParams(cfg, url, p);
            && params.Keys ==
              {"access_token", "video_url", "media_type", "caption", "share_to_feed"}
              + (if Truthy(p.coverUrl) then {"cover_url"} else {})
              + (if Truthy(p.locationId) then {"location_id"} else {})
            && params["access_token"] == cfg.accessToken
            && params["video_url"] == url && params["media_type"] == "REELS"
            && params["caption"] == p.content
            && params["share_to_feed"] == (if p.shareToFeed == Some(false) then "false" else "true")
            && ("cover_url" in params ==> params["cover_url"] == p.coverUrl.value)
            && ("location_id" in params ==> params["location_id"] == p.locationId.value)
  {
  }

  /** The parameters of a Stories container: exactly one of `video_url` and
      `image_url`, chosen by the classifier, and never a caption or a location. */
  function StoriesParams(cfg: Config, url: string): (fields: Params)
  {
    var params := map["access_token" := cfg.accessToken, "media_type" := "STORIES"];
    if IsVideoUrl(url) then params["video_url" := url] else params["image_url" := url]
  }

  /** The fields of a Stories container: exactly one of `video_url` and `image_url`,
      and never a caption or a location. */
  lemma StoriesParamsFields(cfg: Config, url: string)
    ensures var params := StoriesParams(cfg, url);
            && params.Keys == {"access_token", "media_type", if IsVideoUrl(url) then "video_url" else "image_url"}
            && params["access_token"] == cfg.accessToken && params["media_type"] == "STORIES"
            && ("video_url" in params) != ("image_url" in params)
            && ("video_url" in params ==> params["video_url"] == url)
            && ("image_url" in params ==> params["image_url"] == url)
  {
  }

  /** The parameters of the parent container of a multi-image carousel. */
  function CarouselParams(cfg: Config, children: seq<string>, caption: string,
                          locationId: Option<string>): (fields: Params)
  {
    var params := map["access_token" := cfg.accessToken, "media_type" := "CAROUSEL",
                      "children" := Join(children, ","), "caption" := caption];
    if Truthy(locationId) then params["location_id" := locationId.value] else params
  }

  /** The fields of a carousel parent container: the children joined by commas. */
  lemma CarouselParamsFields(cfg: Config, children: seq<string>, caption: string,
                          locationId: Option<string>)
    ensures var params := CarouselParams(cfg, children, caption, locationId);
            && params.Keys ==
              {"access_token", "media_type", "children", "caption"}
              + (if Truthy(locationId) then {"location_id"} else {})
            && params["access_token"] == cfg.accessToken && params["media_type"] == "CAROUSEL"
            && params["children"] == Join(children, ",")
            && params["caption"] == caption
            && ("location_id" in params ==> params["location_id"] == locationId.value)
  {
  }

  // ---------------------------------------------------------------- replies and messages

  /** A creation or publish reply as the publisher reads it. */
  function ReplyResult(reply: Reply): (r: Result<string, Failure>)
    ensures reply.Issued? <==> r.Ok?
    ensures r.Ok? ==> r.value == reply.id
    ensures r.Err? ==> r.error == ApiFailure(reply.message)
  {
    match reply
    case Issued(id) => Ok(id)
    case Rejected(message) => Err(ApiFailure(message))
  }

  /** `publishContainer`'s reading of its reply as the source has it: its error
      branch first hands the response body to a debug log through one
      `response.json()` call, then calls `response.json()` again; a body can be read
      only once, so the second read is refused and the fallback payload's
      `Unknown error` is reported whatever the remote said. */
  function PublishReplyAsWritten(reply: Reply): (r: Result<string, Failure>)
    ensures reply.Issued? <==> r.Ok?
    ensures r.Ok? ==> r.value == reply.id
    ensures r.Err? ==> r.error == ApiFailure("Unknown error")
  {
    match reply
    case Issued(id) => Ok(id)
    case Rejected(_) => Err(ApiFailure("Unknown error"))
  }

  /** As the source has it, a rejected publish loses the remote's reason, which
      every other call reports (`ReplyResult`, used for publishing too). */
  lemma PublishReplyLosesReason(message: string)
    requires message != "Unknown error"
    ensures PublishReplyAsWritten(Rejected(message)) != ReplyResult(Rejected(message))
  {
    assert PublishReplyAsWritten(Rejected(message)).error != ReplyResult(Rejected(message)).error;
  }

  /** A status reply as the publisher reads it: a missing or empty `status_code`
      becomes `UNKNOWN`; a non-ok response is an error. */
  function StatusResult(reply: StatusReply): (r: Result<string, Failure>)
  {
    match reply
    case StatusField(code) => if code != "" then Ok(code) else Ok("UNKNOWN")
    case NoStatusField => Ok("UNKNOWN")
    case StatusRejected(message) => Err(ApiFailure(message))
  }

  /** How a status reply is read. */
  lemma StatusResultReads(reply: StatusReply)
    ensures var r := StatusResult(reply);
            && (r.Err? <==> reply.StatusRejected?)
            && (r.Err? ==> r.error == ApiFailure(reply.message))
            && (r.Ok? ==> r.value != "")
            && (r.Ok? ==> (r.value == "UNKNOWN" <==> reply.NoStatusField? || reply.code in {"", "UNKNOWN"}))
            && (reply.StatusField? && reply.code != "" ==> r == Ok(reply.code))
  {
  }

  /** How the readiness wait reads a container status. */
  datatype StatusKind = Ready | Failed | Pending

  /** `FINISHED` ends the wait successfully, `ERROR` and `EXPIRED` end it with a
      failure, and every other status (`IN_PROGRESS`, `UNKNOWN`, ...) keeps it going. */
  function Readiness(status: string): (kind: StatusKind)
  {
    if status == "FINISHED" then Ready
    else if status == "ERROR" || status == "EXPIRED" then Failed
    else Pending
  }

  /** Which statuses end the wait, and how. */
  lemma ReadinessCases(status: string)
    ensures var kind := Readiness(status);
            && (kind == Ready <==> status == "FINISHED")
            && (kind == Failed <==> status == "ERROR" || status == "EXPIRED")
  {
  }

  /** The message of the exception raised for each failure. */
  function Message(f: Failure): (text: string)
  {
    match f
    case ConfigIncomplete(missing) =>
      ConfigPrefix + Join(missing, ", ") + ". " + ConfigNote
    case InvalidMediaType(mediaType) => InvalidTypePrefix + mediaType
    case CarouselUrlsRequired => CarouselUrlsText
    case CarouselTooMany => CarouselTooManyText
    case CarouselImagesOnly => CarouselImagesText
    case ReelsUrlRequired => ReelsUrlText
    case StoriesUrlRequired => StoriesUrlText
    case ApiFailure(reason) => ApiErrorPrefix + reason
    case ContainerFailed(container, status) => ContainerPrefix + container + " failed with status: " + status
    case ContainerNotReady(container, maxAttempts) =>
      ContainerPrefix + container + NotReadyInfix + NatToString(maxAttempts) + NotReadySuffix
  }

  const ConfigPrefix := "Instagram configuration is missing: "
  const ConfigNote := "Note: When using Facebook Login, Instagram uses Facebook Page access token. "
                      + "Set INSTAGRAM_USER_ID to your Instagram Business Account ID connected to your Facebook Page."
  const InvalidTypePrefix := "Invalid media type: "
  const CarouselUrlsText := "Media URLs array " + "is required for carousel posts"
  const CarouselTooManyText := "Carousel posts can have maximum 10 items"
  const CarouselImagesText := "Carousel only supports images. " + "Please use Reels type for video content."
  const ReelsUrlText := "Media URL is required for Reels"
  const StoriesUrlText := "Media URL is required for Stories"
  const ApiErrorPrefix := "Instagram API error: "
  const ContainerPrefix := "Container "
  const NotReadyInfix := " did not become ready within "
  const NotReadySuffix := " attempts. This may indicate the media is still processing. Please try again later."

  /** Where the fixed texts of the messages first differ from the two prefixes that
      mark an API failure and a container failure. */
  lemma MessageOpenings()
    ensures |ApiErrorPrefix| == 21 && |ContainerPrefix| == 10
    ensures |ConfigPrefix| > 10 && ConfigPrefix[10] != ApiErrorPrefix[10] && ConfigPrefix[0] != ContainerPrefix[0]
    ensures |InvalidTypePrefix| > 2 && InvalidTypePrefix[2] != ApiErrorPrefix[2] && InvalidTypePrefix[0] != ContainerPrefix[0]
    ensures ApiErrorPrefix[0] != ContainerPrefix[0]
    ensures |CarouselUrlsText| > 0 && CarouselUrlsText[0] != ApiErrorPrefix[0] && CarouselUrlsText[0] != ContainerPrefix[0]
    ensures |CarouselTooManyText| > 1 && CarouselTooManyText[0] != ApiErrorPrefix[0]
            && CarouselTooManyText[1] != ContainerPrefix[1]
    ensures |CarouselImagesText| > 1 && CarouselImagesText[0] != ApiErrorPrefix[0]
            && CarouselImagesText[1] != ContainerPrefix[1]
    ensures |ReelsUrlText| > 0 && ReelsUrlText[0] != ApiErrorPrefix[0] && ReelsUrlText[0] != ContainerPrefix[0]
    ensures |StoriesUrlText| > 0 && StoriesUrlText[0] != ApiErrorPrefix[0] && StoriesUrlText[0] != ContainerPrefix[0]
  {
  }

  /** A stored message shows whether the remote refused a call: it opens with the
      API-error prefix exactly for an API failure, and the remote's reason follows. */
  lemma ApiFailureMessage(f: Failure)
    ensures ApiErrorPrefix <= Message(f) <==> f.ApiFailure?
    ensures f.ApiFailure? ==> Message(f)[|ApiErrorPrefix|..] == f.reason
  {
    MessageOpenings();
    var text := Message(f);
    match f
    case ApiFailure(reason) =>
    case ConfigIncomplete(_) =>
      assert text[10] == ConfigPrefix[10];
    case InvalidMediaType(_) =>
      assert text[2] == InvalidTypePrefix[2];
    case ContainerFailed(_, _) =>
      assert text[0] == ContainerPrefix[0];
    case ContainerNotReady(_, _) =>
      assert text[0] == ContainerPrefix[0];
    case _ =>
  }

  /** A stored message shows whether a container failed: it opens with `Container `
      exactly for a failed or never-ready container, and the container's id follows. */
  lemma ContainerMessage(f: Failure)
    ensures ContainerPrefix <= Message(f) <==> f.ContainerFailed? || f.ContainerNotReady?
    ensures f.ContainerFailed? || f.ContainerNotReady? ==>
              Message(f)[|ContainerPrefix|..|ContainerPrefix| + |f.container|] == f.container
  {
    MessageOpenings();
    var text := Message(f);
    match f
    case ContainerFailed(container, status) =>
      assert text == ContainerPrefix + container + (" failed with status: " + status);
    case ContainerNotReady(container, n) =>
      var rest := NotReadyInfix + NatToString(n) + NotReadySuffix;
      assert text == ContainerPrefix + container + rest;
    case ConfigIncomplete(_) =>
      assert text[0] == ConfigPrefix[0];
    case InvalidMediaType(_) =>
      assert text[0] == InvalidTypePrefix[0];
    case ApiFailure(_) =>
      assert text[0] == ApiErrorPrefix[0];
    case _ =>
  }

  /** The attempt count in a never-ready message reads back as the count: its
      decimal digits follow the container id and the fixed words. */
  lemma NotReadyMessageReadsCount(container: string, n: nat)
    ensures var text := Message(ContainerNotReady(container, n));
            var k := |ContainerPrefix| + |container| + |NotReadyInfix|;
            exists digits :: k + |digits| <= |text| && text[k..k + |digits|] == digits
                             && |digits| >= 1 && DigitsValue(digits) == n
  {
    var digits := NatToString(n);
    var rest := NotReadySuffix;
    var text := Message(ContainerNotReady(container, n));
    var k := |ContainerPrefix| + |container| + |NotReadyInfix|;
    assert text == (ContainerPrefix + container + NotReadyInfix) + digits + rest;
    assert text[k..k + |digits|] == digits;
  }

  const SingleImageDetail := "Instagram post published successfully"
  const CarouselDetail := "Instagram carousel published successfully"
  const ReelsDetail := "Instagram Reels published successfully"
  const StoriesDetail := "Instagram Stories published successfully"
}
