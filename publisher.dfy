/** The Instagram publisher (`InstagramPublisher`): drives the gateway through the
    container protocol. Every method is proved to leave the gateway exactly in the
    state, and to return exactly the result, that its reference run in `Runs`
    describes. */
module Publisher {
  import opened Wrappers
  import opened GraphApi
  import opened Media
  import opened Runs

  class InstagramPublisher {
    const config: Config
    const api: Gateway

    constructor (config: Config, api: Gateway)
      ensures this.config == config && this.api == api
    {
      this.config := config;
      this.api := api;
    }

    /** The gateway's current log and counters. */
    ghost function Current(): State
      reads api
    {
      State(api.log, api.at)
    }

    /** `publish`: refuse an incomplete configuration, then dispatch on the media type. */
    method Publish(p: Payload) returns (r: Result<PublishResult, Failure>)
      modifies api
      ensures Run(r, Current()) == PublishRun(api.remote, old(Current()), config, p)
    {
      if !ConfigValid(config) {
        return Err(ConfigIncomplete(MissingConfig(config)));
      }
      var mode := SelectMode(p.mediaType);
      match mode {
        case Err(m) => r := Err(m);
        case Ok(Carousel) => r := PublishCarousel(p);
        case Ok(Reels) => r := PublishReels(p);
        case Ok(Stories) => r := PublishStories(p);
      }
    }

    /** `publishReels`. */
    method PublishReels(p: Payload) returns (r: Result<PublishResult, Failure>)
      modifies api
      ensures Run(r, Current()) == ReelsRun(api.remote, old(Current()), config, p)
    {
      if !HasMedia(p.mediaUrls) {
        return Err(ReelsUrlRequired);
      }
      var mediaUrl := p.mediaUrls.value[0];
      var containerId := CreateReelsContainer(mediaUrl, p);
      if containerId.Err? {
        return Err(containerId.error);
      }
      var ready := WaitForContainerReady(containerId.value, MaxAttempts, DelayMs);
      if ready.Err? {
        return Err(ready.error);
      }
      var mediaId := PublishContainer(containerId.value);
      if mediaId.Err? {
        return Err(mediaId.error);
      }
      return Ok(PublishResult(mediaId.value, ReelsDetail));
    }

    /** `publishStories`. */
    method PublishStories(p: Payload) returns (r: Result<PublishResult, Failure>)
      modifies api
      ensures Run(r, Current()) == StoriesRun(api.remote, old(Current()), config, p)
    {
      if !HasMedia(p.mediaUrls) {
        return Err(StoriesUrlRequired);
      }
      var mediaUrl := p.mediaUrls.value[0];
      var containerId := CreateStoriesContainer(mediaUrl);
      if containerId.Err? {
        return Err(containerId.error);
      }
      if IsVideoUrl(mediaUrl) {
        var ready := WaitForContainerReady(containerId.value, MaxAttempts, DelayMs);
        if ready.Err? {
          return Err(ready.error);
        }
      }
      var mediaId := PublishContainer(containerId.value);
      if mediaId.Err? {
        return Err(mediaId.error);
      }
      return Ok(PublishResult(mediaId.value, StoriesDetail));
    }

    /** `publishCarousel`: validate, create one image container per URL, wait for all
        of them, then publish the single image directly or create and publish the
        parent carousel container. */
    method PublishCarousel(p: Payload) returns (r: Result<PublishResult, Failure>)
      modifies api
      ensures Run(r, Current()) == CarouselRun(api.remote, old(Current()), config, p)
    {
      var err := CarouselError(p.mediaUrls);
      if err.Some? {
        return Err(err.value);
      }
      var urls := p.mediaUrls.value;
      var isItem := |urls| > 1;
      var caption := if isItem then None else Some(p.content);
      var locationId := if isItem then None else p.locationId;

      var containerIds := CreateCarouselItems(urls, isItem, caption, locationId);
      if containerIds.Err? {
        return Err(containerIds.error);
      }
      var ready := WaitForAllContainersReady(containerIds.value);
      if ready.Err? {
        return Err(ready.error);
      }
      if !isItem {
        var mediaId := PublishContainer(containerIds.value[0]);
        if mediaId.Err? {
          return Err(mediaId.error);
        }
        return Ok(PublishResult(mediaId.value, SingleImageDetail));
      }
      var carouselContainerId := CreateCarouselContainer(containerIds.value, p.content, p.locationId);
      if carouselContainerId.Err? {
        return Err(carouselContainerId.error);
      }
      var mediaId := PublishContainer(carouselContainerId.value);
      if mediaId.Err? {
        return Err(mediaId.error);
      }
      return Ok(PublishResult(mediaId.value, CarouselDetail));
    }

    /** Step 1 of `publishCarousel`: one image container per URL, in order, the ids
        collected as they are issued; the first failed creation aborts. */
    method CreateCarouselItems(urls: seq<string>, isItem: bool, caption: Option<string>,
                               locationId: Option<string>) returns (r: Result<seq<string>, Failure>)
      modifies api
      ensures Run(r, Current()) == CreateItems(api.remote, old(Current()), config, urls, 0, [], isItem, caption, locationId)
    {
      ghost var whole := CreateItems(api.remote, Current(), config, urls, 0, [], isItem, caption, locationId);
      var containerIds: seq<string> := [];
      var i := 0;
      while i < |urls|
        invariant i <= |urls|
        invariant whole == CreateItems(api.remote, Current(), config, urls, i, containerIds, isItem, caption, locationId)
      {
        var containerId := CreateCarouselItemContainer(urls[i], isItem, caption, locationId);
        if containerId.Err? {
          return Err(containerId.error);
        }
        containerIds := containerIds + [containerId.value];
        i := i + 1;
      }
      r := Ok(containerIds);
    }

    /** `createCarouselItemContainer`. */
    method CreateCarouselItemContainer(mediaUrl: string, isCarouselItem: bool, caption: Option<string>,
                                       locationId: Option<string>) returns (r: Result<string, Failure>)
      modifies api
      ensures Run(r, Current()) == CreateStep(api.remote, old(Current()),
                                       ItemParams(config, mediaUrl, isCarouselItem, caption, locationId))
    {
      var reply := api.CreateContainer(ItemParams(config, mediaUrl, isCarouselItem, caption, locationId));
      r := ReplyResult(reply);
    }

    /** `createReelsContainer`. */
    method CreateReelsContainer(mediaUrl: string, p: Payload) returns (r: Result<string, Failure>)
      modifies api
      ensures Run(r, Current()) == CreateStep(api.remote, old(Current()), ReelsParams(config, mediaUrl, p))
    {
      var reply := api.CreateContainer(ReelsParams(config, mediaUrl, p));
      r := ReplyResult(reply);
    }

    /** `createStoriesContainer`. */
    method CreateStoriesContainer(mediaUrl: string) returns (r: Result<string, Failure>)
      modifies api
      ensures Run(r, Current()) == CreateStep(api.remote, old(Current()), StoriesParams(config, mediaUrl))
    {
      var reply := api.CreateContainer(StoriesParams(config, mediaUrl));
      r := ReplyResult(reply);
    }

    /** `createCarouselContainer`. */
    method CreateCarouselContainer(containerIds: seq<string>, caption: string, locationId: Option<string>)
      returns (r: Result<string, Failure>)
      modifies api
      ensures Run(r, Current()) == CreateStep(api.remote, old(Current()), CarouselParams(config, containerIds, caption, locationId))
    {
      var reply := api.CreateContainer(CarouselParams(config, containerIds, caption, locationId));
      r := ReplyResult(reply);
    }

    /** `publishContainer`. */
    method PublishContainer(containerId: string) returns (r: Result<string, Failure>)
      modifies api
      ensures Run(r, Current()) == PublishStep(api.remote, old(Current()), containerId)
    {
      var reply := api.PublishContainer(containerId);
      r := ReplyResult(reply);
    }

    /** `checkContainerStatus`. */
    method CheckContainerStatus(containerId: string) returns (r: Result<string, Failure>)
      modifies api
      ensures Run(r, Current()) == CheckStep(api.remote, old(Current()), containerId)
    {
      var reply := api.CheckStatus(containerId);
      r := StatusResult(reply);
    }

    /** `waitForContainerReady`: at most `maxAttempts` status checks, a pause after
        every non-terminal status except on the last attempt. */
    method WaitForContainerReady(containerId: string, maxAttempts: nat, delayMs: nat) returns (r: Result<(), Failure>)
      modifies api
      ensures Run(r, Current()) == PollFrom(api.remote, old(Current()), containerId, 0, maxAttempts, delayMs)
    {
      ghost var whole := PollFrom(api.remote, Current(), containerId, 0, maxAttempts, delayMs);
      var attempt: nat := 0;
      while attempt < maxAttempts
        invariant attempt <= maxAttempts
        invariant whole == PollFrom(api.remote, Current(), containerId, attempt, maxAttempts, delayMs)
        decreases maxAttempts - attempt
      {
        var status := CheckContainerStatus(containerId);
        if status.Err? {
          return Err(status.error);
        }
        match Readiness(status.value)
        case Ready =>
          return Ok(());
        case Failed =>
          return Err(ContainerFailed(containerId, status.value));
        case Pending =>
          if attempt < maxAttempts - 1 {
            api.Sleep(delayMs);
          }
        attempt := attempt + 1;
      }
      r := Err(ContainerNotReady(containerId, maxAttempts));
    }

    /** `Promise.all(containerIds.map(waitForContainerReady))`, taken one container
        after the other: every container must become ready, the first failure aborts. */
    method WaitForAllContainersReady(containerIds: seq<string>) returns (r: Result<(), Failure>)
      modifies api
      ensures Run(r, Current()) == PollEach(api.remote, old(Current()), containerIds, 0)
    {
      ghost var whole := PollEach(api.remote, Current(), containerIds, 0);
      var i := 0;
      while i < |containerIds|
        invariant i <= |containerIds|
        invariant whole == PollEach(api.remote, Current(), containerIds, i)
      {
        var ready := WaitForContainerReady(containerIds[i], MaxAttempts, DelayMs);
        if ready.Err? {
          return ready;
        }
        i := i + 1;
      }
      r := Ok(());
    }
  }
}
