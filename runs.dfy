/** Reference definitions of the publisher's behaviour: for each operation, the
    gateway state it leaves behind (the call log extended with the calls it makes,
    and the call counters) and what it returns, as a function of the remote's
    scripted answers and of the state it starts from. The imperative publisher is
    proved to follow these, and the properties of the publisher are proved about them. */
module Runs {
  import opened Wrappers
  import opened GraphApi
  import opened Media

  /** `waitForContainerReady`'s defaults: 30 status checks, 2000 ms apart. */
  const MaxAttempts: nat := 30
  const DelayMs: nat := 2000

  /** What the gateway has seen so far: its call log and its call counters. */
  datatype State = State(log: seq<Event>, at: Cursor)

  /** What an operation returns, and the gateway state it leaves behind. */
  datatype Run<T> = Run(outcome: Result<T, Failure>, state: State)

  /** A failed run, re-typed for the operation it aborts. */
  function Abort<T, U>(run: Run<T>): (aborted: Run<U>)
    requires run.outcome.Err?
  {
    Run(Err(run.outcome.error), run.state)
  }

  /** One container-creation call. */
  function CreateStep(rm: Remote, s: State, params: Params): (run: Run<string>)
  {
    var reply := rm.onCreate(s.at.creates);
    Run(ReplyResult(reply), State(s.log + [Created(params, reply)], s.at.(creates := s.at.creates + 1)))
  }

  /** One status query (`checkContainerStatus`). */
  function CheckStep(rm: Remote, s: State, container: string): (run: Run<string>)
  {
    var reply := rm.onStatus(s.at.checks);
    Run(StatusResult(reply), State(s.log + [Checked(container, reply)], s.at.(checks := s.at.checks + 1)))
  }

  /** One `media_publish` call (`publishContainer`). */
  function PublishStep(rm: Remote, s: State, creation: string): (run: Run<string>)
  {
    var reply := rm.onPublish(s.at.publishes);
    Run(ReplyResult(reply), State(s.log + [Published(creation, reply)], s.at.(publishes := s.at.publishes + 1)))
  }

  /** One pause between two status queries. */
  function SleepStep(s: State, delayMs: nat): (paused: State)
  {
    State(s.log + [Slept(delayMs)], s.at)
  }

  /** The readiness wait from attempt `attempt` on: query, stop on a terminal status
      or a failed query, otherwise pause unless this was the last attempt, and give up
      after `maxAttempts` attempts. */
  function PollFrom(rm: Remote, s: State, container: string, attempt: nat,
                    maxAttempts: nat, delayMs: nat): (run: Run<()>)
    decreases maxAttempts - attempt
  {
    if attempt >= maxAttempts then Run(Err(ContainerNotReady(container, maxAttempts)), s)
    else
      var check := CheckStep(rm, s, container);
      match check.outcome
      case Err(m) => Run(Err(m), check.state)
      case Ok(status) =>
        match Readiness(status)
        case Ready => Run(Ok(()), check.state)
        case Failed => Run(Err(ContainerFailed(container, status)), check.state)
        case Pending =>
          var paused := if attempt < maxAttempts - 1 then SleepStep(check.state, delayMs) else check.state;
          PollFrom(rm, paused, container, attempt + 1, maxAttempts, delayMs)
  }

  /** Waiting for the containers from index `from` on, one after the other,
      stopping at the first one that fails. */
  function PollEach(rm: Remote, s: State, containers: seq<string>, from: nat): (run: Run<()>)
    decreases |containers| - from
  {
    if from >= |containers| then Run(Ok(()), s)
    else
      var first := PollFrom(rm, s, containers[from], 0, MaxAttempts, DelayMs);
      if first.outcome.Err? then first
      else PollEach(rm, first.state, containers, from + 1)
  }

  /** Creating one image container per URL from index `from` on, in order, stopping
      at the first failure; `ids` are the ids issued so far. */
  function CreateItems(rm: Remote, s: State, cfg: Config, urls: seq<string>, from: nat, ids: seq<string>,
                       isItem: bool, caption: Option<string>, locationId: Option<string>): (run: Run<seq<string>>)
    requires from <= |urls|
    ensures run.outcome.Ok? ==> |run.outcome.value| == |ids| + |urls| - from
    decreases |urls| - from
  {
    if from == |urls| then Run(Ok(ids), s)
    else
      var first := CreateStep(rm, s, ItemParams(cfg, urls[from], isItem, caption, locationId));
      match first.outcome
      case Err(m) => Run(Err(m), first.state)
      case Ok(id) => CreateItems(rm, first.state, cfg, urls, from + 1, ids + [id], isItem, caption, locationId)
  }

  /** A publish call turned into the operation's result. */
  function Finish(publish: Run<string>, detail: string): (run: Run<PublishResult>)
  {
    match publish.outcome
    case Ok(mediaId) => Run(Ok(PublishResult(mediaId, detail)), publish.state)
    case Err(m) => Run(Err(m), publish.state)
  }

  /** `publishCarousel`. */
  function CarouselRun(rm: Remote, s: State, cfg: Config, p: Payload): (run: Run<PublishResult>)
  {
    match CarouselError(p.mediaUrls)
    case Some(m) => Run(Err(m), s)
    case None =>
      var urls := p.mediaUrls.value;
      var isItem := |urls| > 1;
      var created := CreateItems(rm, s, cfg, urls, 0, [], isItem,
                                 if isItem then None else Some(p.content),
                                 if isItem then None else p.locationId);
      if created.outcome.Err? then Abort(created)
      else
        var ids := created.outcome.value;
        var polled := PollEach(rm, created.state, ids, 0);
        if polled.outcome.Err? then Abort(polled)
        else if !isItem then Finish(PublishStep(rm, polled.state, ids[0]), SingleImageDetail)
        else
          var parent := CreateStep(rm, polled.state, CarouselParams(cfg, ids, p.content, p.locationId));
          if parent.outcome.Err? then Abort(parent)
          else Finish(PublishStep(rm, parent.state, parent.outcome.value), CarouselDetail)
  }

  /** `publishReels`: only the first URL is used, and the container is always waited for. */
  function ReelsRun(rm: Remote, s: State, cfg: Config, p: Payload): (run: Run<PublishResult>)
  {
    if !HasMedia(p.mediaUrls) then Run(Err(ReelsUrlRequired), s)
    else
      var url := p.mediaUrls.value[0];
      var created := CreateStep(rm, s, ReelsParams(cfg, url, p));
      if created.outcome.Err? then Abort(created)
      else
        var id := created.outcome.value;
        var polled := PollFrom(rm, created.state, id, 0, MaxAttempts, DelayMs);
        if polled.outcome.Err? then Abort(polled)
        else Finish(PublishStep(rm, polled.state, id), ReelsDetail)
  }

  /** `publishStories`: only the first URL is used, and the container is waited for
      only when that URL is classified as a video. */
  function StoriesRun(rm: Remote, s: State, cfg: Config, p: Payload): (run: Run<PublishResult>)
  {
    if !HasMedia(p.mediaUrls) then Run(Err(StoriesUrlRequired), s)
    else
      var url := p.mediaUrls.value[0];
      var created := CreateStep(rm, s, StoriesParams(cfg, url));
      if created.outcome.Err? then Abort(created)
      else
        var id := created.outcome.value;
        var polled := if IsVideoUrl(url) then PollFrom(rm, created.state, id, 0, MaxAttempts, DelayMs)
                      else Run(Ok(()), created.state);
        if polled.outcome.Err? then Abort(polled)
        else Finish(PublishStep(rm, polled.state, id), StoriesDetail)
  }

  /** `publish`: the configuration check, then the mode dispatch. */
  function PublishRun(rm: Remote, s: State, cfg: Config, p: Payload): (run: Run<PublishResult>)
  {
    if !ConfigValid(cfg) then Run(Err(ConfigIncomplete(MissingConfig(cfg))), s)
    else
      match SelectMode(p.mediaType)
      case Err(m) => Run(Err(m), s)
      case Ok(Carousel) => CarouselRun(rm, s, cfg, p)
      case Ok(Reels) => ReelsRun(rm, s, cfg, p)
      case Ok(Stories) => StoriesRun(rm, s, cfg, p)
  }
}
