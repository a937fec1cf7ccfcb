/** What the publisher promises, end to end: the readiness wait's verdict, the
    configuration and media-type checks, the calls each publishing mode makes and
    the result it returns, and the video classifier. */
module PublishFacts {
  import opened Wrappers
  import opened Text
  import opened GraphApi
  import opened Media
  import opened Runs
  import opened RunFacts

  // ---------------------------------------------------------------- the readiness wait

  /** The wait succeeds exactly when some query reports `FINISHED` within the
      allowed attempts and every query before it reported a non-terminal status. */
  lemma PollSucceedsIff(rm: Remote, s: State, container: string, maxAttempts: nat, delayMs: nat)
    ensures PollFrom(rm, s, container, 0, maxAttempts, delayMs).outcome.Ok?
        <==> exists k :: 0 <= k < maxAttempts && PendingFor(rm, s.at, k) && StatusAt(rm, s.at, k) == Ok("FINISHED")
  {
    var outcome := PollFrom(rm, s, container, 0, maxAttempts, delayMs).outcome;
    FirstStop(rm, s.at, maxAttempts);
    if PendingFor(rm, s.at, maxAttempts) {
      PollExhausts(rm, s, container, 0, maxAttempts, delayMs);
      forall k | 0 <= k < maxAttempts && PendingFor(rm, s.at, k)
        ensures StatusAt(rm, s.at, k) != Ok("FINISHED")
      {
        assert PendingAt(rm, s.at, k);
      }
    } else {
      var k :| 0 <= k < maxAttempts && PendingFor(rm, s.at, k) && !PendingAt(rm, s.at, k);
      PollStops(rm, s, container, 0, maxAttempts, delayMs, k);
      ReadinessCases("FINISHED");
      if outcome.Ok? {
        assert StatusAt(rm, s.at, k) == Ok("FINISHED");
      }
      forall j | 0 <= j < maxAttempts && PendingFor(rm, s.at, j) && StatusAt(rm, s.at, j) == Ok("FINISHED")
        ensures outcome.Ok?
      {
        assert !PendingAt(rm, s.at, j) && !PendingAt(rm, s.at, k);
        assert j == k;
      }
    }
  }

  /** A remote whose status answers start with `IN_PROGRESS`, `IN_PROGRESS`,
      `FINISHED`: the wait succeeds after three queries and two pauses. */
  lemma ReadyOnThirdQuery(rm: Remote, s: State, container: string)
    requires rm.onStatus(s.at.checks) == StatusField("IN_PROGRESS")
    requires rm.onStatus(s.at.checks + 1) == StatusField("IN_PROGRESS")
    requires rm.onStatus(s.at.checks + 2) == StatusField("FINISHED")
    ensures var run := PollFrom(rm, s, container, 0, MaxAttempts, DelayMs);
            && run.outcome == Ok(())
            && |CheckedIds(run.state.log)| == |CheckedIds(s.log)| + 3
            && Sleeps(run.state.log) == Sleeps(s.log) + 2
  {
    assert StatusAt(rm, s.at, 0) == Ok("IN_PROGRESS");
    assert StatusAt(rm, s.at, 1) == Ok("IN_PROGRESS");
    assert StatusAt(rm, s.at, 2) == Ok("FINISHED");
    assert PendingFor(rm, s.at, 2) by {
      forall k | 0 <= k < 2 ensures PendingAt(rm, s.at, k) {
        assert StatusAt(rm, s.at, k) == Ok("IN_PROGRESS");
      }
    }
    PollStops(rm, s, container, 0, MaxAttempts, DelayMs, 2);
    PollStopsCounts(rm, s, container, 0, MaxAttempts, DelayMs, 2);
  }

  /** An `ERROR` or `EXPIRED` status fails the wait at once, naming the container
      and the status, after a single query and no pause. */
  lemma FailsOnTerminalStatus(rm: Remote, s: State, container: string, status: string)
    requires status == "ERROR" || status == "EXPIRED"
    requires rm.onStatus(s.at.checks) == StatusField(status)
    ensures var run := PollFrom(rm, s, container, 0, MaxAttempts, DelayMs);
            && run.outcome == Err(ContainerFailed(container, status))
            && |CheckedIds(run.state.log)| == |CheckedIds(s.log)| + 1
            && Sleeps(run.state.log) == Sleeps(s.log)
  {
    assert StatusAt(rm, s.at, 0) == Ok(status);
    assert PendingFor(rm, s.at, 0);
    PollStops(rm, s, container, 0, MaxAttempts, DelayMs, 0);
    PollStopsCounts(rm, s, container, 0, MaxAttempts, DelayMs, 0);
  }

  /** A container that never leaves a non-terminal status exhausts the wait: thirty
      queries, a pause between each two of them, and the not-ready error. */
  lemma GivesUpAfterMaxAttempts(rm: Remote, s: State, container: string)
    requires PendingFor(rm, s.at, MaxAttempts)
    ensures var run := PollFrom(rm, s, container, 0, MaxAttempts, DelayMs);
            && run.outcome == Err(ContainerNotReady(container, 30))
            && |CheckedIds(run.state.log)| == |CheckedIds(s.log)| + 30
            && Sleeps(run.state.log) == Sleeps(s.log) + 29
  {
    PollExhausts(rm, s, container, 0, MaxAttempts, DelayMs);
    PollExhaustsCounts(rm, s, container, 0, MaxAttempts, DelayMs);
    PollCounts(rm, s, container, 0, MaxAttempts, DelayMs);
  }

  // ---------------------------------------------------------------- single calls

  /** The not-ready message states the attempt count as the decimal `30`. */
  lemma NotReadyMessageCount()
    ensures NatToString(MaxAttempts) == "30"
  {
    assert NatToString(3) == "3";
  }

  /** What one creation call adds to the summaries of the log. */
  lemma CreateStepSummaries(rm: Remote, s: State, params: Params)
    ensures var run := CreateStep(rm, s, params);
            && Creations(run.state.log) == Creations(s.log) + [params]
            && CreatedIds(run.state.log) == CreatedIds(s.log) + (if run.outcome.Ok? then [run.outcome.value] else [])
            && CheckedIds(run.state.log) == CheckedIds(s.log)
            && Publications(run.state.log) == Publications(s.log)
  {
    var e := Created(params, rm.onCreate(s.at.creates));
    CreationsAppend(s.log, e);
    CreatedIdsAppend(s.log, e);
    CheckedIdsAppend(s.log, e);
    PublicationsAppend(s.log, e);
  }

  /** What one publish call adds to the summaries of the log. */
  lemma PublishStepSummaries(rm: Remote, s: State, creation: string)
    ensures var run := PublishStep(rm, s, creation);
            && Creations(run.state.log) == Creations(s.log)
            && CreatedIds(run.state.log) == CreatedIds(s.log)
            && CheckedIds(run.state.log) == CheckedIds(s.log)
            && Publications(run.state.log) == Publications(s.log) + [creation]
  {
    var e := Published(creation, rm.onPublish(s.at.publishes));
    CreationsAppend(s.log, e);
    CreatedIdsAppend(s.log, e);
    CheckedIdsAppend(s.log, e);
    PublicationsAppend(s.log, e);
  }

  // ---------------------------------------------------------------- configuration and dispatch

  /** An incomplete configuration is refused before any remote call, with the
      names of the missing credentials. */
  lemma ConfigFailsFast(rm: Remote, s: State, cfg: Config, p: Payload)
    requires !ConfigValid(cfg)
    ensures PublishRun(rm, s, cfg, p) == Run(Err(ConfigIncomplete(MissingConfig(cfg))), s)
    ensures MissingConfig(cfg) != []
  {
  }

  /** With a complete configuration, the media type alone picks the mode: an absent
      or empty type publishes a carousel, and an unknown type is refused before any
      remote call. */
  lemma DispatchCases(rm: Remote, s: State, cfg: Config, p: Payload)
    requires ConfigValid(cfg)
    ensures var run := PublishRun(rm, s, cfg, p);
            var name := EffectiveMediaType(p.mediaType);
            && (name == "CAROUSEL" ==> run == CarouselRun(rm, s, cfg, p))
            && (name == "REELS" ==> run == ReelsRun(rm, s, cfg, p))
            && (name == "STORIES" ==> run == StoriesRun(rm, s, cfg, p))
            && (name !in {"CAROUSEL", "REELS", "STORIES"} ==> run == Run(Err(InvalidMediaType(name)), s))
  {
    SelectModeCases(p.mediaType);
  }

  // ---------------------------------------------------------------- carousel

  /** A carousel request with a video among its URLs is refused before any remote
      call, even when the list is otherwise valid. */
  lemma CarouselRefusesVideo(rm: Remote, s: State, cfg: Config, p: Payload, i: nat)
    requires p.mediaUrls.Some? && i < |p.mediaUrls.value| <= MaxCarouselItems
    requires IsVideoUrl(p.mediaUrls.value[i])
    ensures CarouselRun(rm, s, cfg, p) == Run(Err(CarouselImagesOnly), s)
  {
    CarouselErrorCases(p.mediaUrls);
  }

  /** Creating the containers of a one-URL list is one creation call. */
  lemma CreateItemsSingle(rm: Remote, s: State, cfg: Config, url: string, isItem: bool,
                          caption: Option<string>, locationId: Option<string>)
    ensures var run := CreateItems(rm, s, cfg, [url], 0, [], isItem, caption, locationId);
            var first := CreateStep(rm, s, ItemParams(cfg, url, isItem, caption, locationId));
            && run.state == first.state
            && (run.outcome.Ok? <==> first.outcome.Ok?)
            && (run.outcome.Ok? ==> run.outcome.value == [first.outcome.value])
  {
    var first := CreateStep(rm, s, ItemParams(cfg, url, isItem, caption, locationId));
    if first.outcome.Ok? {
      var rest := CreateItems(rm, first.state, cfg, [url], 1, [] + [first.outcome.value], isItem, caption, locationId);
      assert rest == Run(Ok([] + [first.outcome.value]), first.state);
      assert [] + [first.outcome.value] == [first.outcome.value];
    }
  }

  /** A one-image carousel makes a single image container that carries the caption
      and location itself, never a carousel container, and publishes that image. */
  lemma SingleImageCarousel(rm: Remote, c: Cursor, cfg: Config, p: Payload, url: string)
    requires p.mediaUrls == Some([url]) && !IsVideoUrl(url)
    ensures var run := CarouselRun(rm, Fresh(c), cfg, p);
            && Creations(run.state.log) == [ItemParams(cfg, url, false, Some(p.content), p.locationId)]
            && (run.outcome.Ok? ==>
                  && |CreatedIds(run.state.log)| == 1
                  && Publications(run.state.log) == CreatedIds(run.state.log)
                  && CreatedIds(run.state.log)[0] in CheckedIds(run.state.log)
                  && run.outcome.value.detail == SingleImageDetail)
  {
    CarouselErrorCases(p.mediaUrls);
    var params := ItemParams(cfg, url, false, Some(p.content), p.locationId);
    var s := Fresh(c);
    var first := CreateStep(rm, s, params);
    CreateStepSummaries(rm, s, params);
    var created := CreateItems(rm, s, cfg, [url], 0, [], false, Some(p.content), p.locationId);
    CreateItemsSingle(rm, s, cfg, url, false, Some(p.content), p.locationId);
    if created.outcome.Ok? {
      var ids := created.outcome.value;
      assert CreatedIds(s.log) == [];
      assert ids == CreatedIds(first.state.log);
      var polled := PollEach(rm, created.state, ids, 0);
      PollEachOnlyQueries(rm, created.state, ids, 0);
      if polled.outcome.Ok? {
        PollEachChecksAll(rm, created.state, ids, 0);
        PublishStepSummaries(rm, polled.state, ids[0]);
      }
    }
  }

  /** A successful one-image carousel ends with the publish call, made after its
      image container reported `FINISHED` and with no query failing before it. */
  lemma SingleImagePublishesAfterFinished(rm: Remote, c: Cursor, cfg: Config, p: Payload, url: string)
    requires p.mediaUrls == Some([url]) && !IsVideoUrl(url)
    ensures var run := CarouselRun(rm, Fresh(c), cfg, p);
            run.outcome.Ok? ==> PublishedAfterFinished(run.state.log)
  {
    CarouselErrorCases(p.mediaUrls);
    var params := ItemParams(cfg, url, false, Some(p.content), p.locationId);
    var s := Fresh(c);
    var first := CreateStep(rm, s, params);
    var created := CreateItems(rm, s, cfg, [url], 0, [], false, Some(p.content), p.locationId);
    CreateItemsSingle(rm, s, cfg, url, false, Some(p.content), p.locationId);
    if created.outcome.Ok? {
      CreateStepSummaries(rm, s, params);
      NoFailedQueryAppend(s.log, Created(params, rm.onCreate(s.at.creates)));
      var ids := created.outcome.value;
      assert CreatedIds(s.log) == [];
      assert ids == CreatedIds(first.state.log);
      var polled := PollEach(rm, created.state, ids, 0);
      PollEachOnlyQueries(rm, created.state, ids, 0);
      PollEachReportsFinished(rm, created.state, ids, 0);
      PollEachNoFailedQuery(rm, created.state, ids, 0);
      if polled.outcome.Ok? {
        PublishStepSummaries(rm, polled.state, ids[0]);
        var reply := rm.onPublish(polled.state.at.publishes);
        assert PublishStep(rm, polled.state, ids[0]).state.log == polled.state.log + [Published(ids[0], reply)];
      }
    }
  }

  /** The stages of a successful carousel of two to ten images: the child
      containers are created and waited for, then the carousel container is created
      and published. */
  lemma MultiImageStages(rm: Remote, s: State, cfg: Config, p: Payload, urls: seq<string>)
    requires p.mediaUrls == Some(urls) && 2 <= |urls| <= MaxCarouselItems
    requires forall i :: 0 <= i < |urls| ==> !IsVideoUrl(urls[i])
    ensures var run := CarouselRun(rm, s, cfg, p);
            var created := CreateItems(rm, s, cfg, urls, 0, [], true, None, None);
            run.outcome.Ok? ==>
              && created.outcome.Ok?
              && var polled := PollEach(rm, created.state, created.outcome.value, 0);
              && polled.outcome.Ok?
              && var parent := CreateStep(rm, polled.state, CarouselParams(cfg, created.outcome.value, p.content, p.locationId));
              && parent.outcome.Ok?
              && run == Finish(PublishStep(rm, parent.state, parent.outcome.value), CarouselDetail)
  {
    assert !AnyVideo(urls);
  }

  /** A successful carousel of two to ten images: one child container per URL, in
      list order, each marked as a carousel item and without caption or location,
      then one carousel container whose children are the child ids in order. */
  lemma MultiImageCreations(rm: Remote, c: Cursor, cfg: Config, p: Payload, urls: seq<string>)
    requires p.mediaUrls == Some(urls) && 2 <= |urls| <= MaxCarouselItems
    requires forall i :: 0 <= i < |urls| ==> !IsVideoUrl(urls[i])
    ensures var run := CarouselRun(rm, Fresh(c), cfg, p);
            var ids := CreatedIds(run.state.log);
            run.outcome.Ok? ==>
              && |ids| == |urls| + 1
              && Creations(run.state.log)
                 == ItemParamsList(cfg, urls, true, None, None) + [CarouselParams(cfg, ids[..|urls|], p.content, p.locationId)]
  {
    MultiImageStages(rm, Fresh(c), cfg, p, urls);
    CarouselStagesCreations(rm, Fresh(c), cfg, p.content, p.locationId, urls);
  }

  /** The stages of a carousel, run one after the other from an empty log: when each
      succeeds, the log holds one image container per URL, in list order, then the
      carousel container over the ids issued to them. */
  lemma CarouselStagesCreations(rm: Remote, s: State, cfg: Config, caption: string,
                                locationId: Option<string>, urls: seq<string>)
    requires s.log == []
    ensures var created := CreateItems(rm, s, cfg, urls, 0, [], true, None, None);
            created.outcome.Ok? ==>
            var childIds := created.outcome.value;
            var polled := PollEach(rm, created.state, childIds, 0);
            var parent := CreateStep(rm, polled.state, CarouselParams(cfg, childIds, caption, locationId));
            polled.outcome.Ok? && parent.outcome.Ok? ==>
            var log := PublishStep(rm, parent.state, parent.outcome.value).state.log;
              && |CreatedIds(log)| == |urls| + 1
              && Creations(log)
                 == ItemParamsList(cfg, urls, true, None, None)
                    + [CarouselParams(cfg, CreatedIds(log)[..|urls|], caption, locationId)]
  {
    var created := CreateItems(rm, s, cfg, urls, 0, [], true, None, None);
    if created.outcome.Ok? {
      var childIds := created.outcome.value;
      var polled := PollEach(rm, created.state, childIds, 0);
      var params := CarouselParams(cfg, childIds, caption, locationId);
      var parent := CreateStep(rm, polled.state, params);
      if polled.outcome.Ok? && parent.outcome.Ok? {
        CreateItemsCreations(rm, s, cfg, urls, 0, [], true, None, None);
        CreateItemsIds(rm, s, cfg, urls, 0, [], true, None, None);
        CreateItemsCount(rm, s, cfg, urls, 0, [], true, None, None);
        PollEachOnlyQueries(rm, created.state, childIds, 0);
        CreateStepSummaries(rm, polled.state, params);
        PublishStepSummaries(rm, parent.state, parent.outcome.value);
        assert urls[0..] == urls;
        assert (childIds + [parent.outcome.value])[..|urls|] == childIds;
      }
    }
  }

  /** A successful carousel of two to ten images has waited for every child before
      creating the carousel container: the log splits at that creation, every child
      reported `FINISHED` before it with no query failing, and no status query
      follows it. */
  lemma MultiImageWaitsForChildren(rm: Remote, c: Cursor, cfg: Config, p: Payload, urls: seq<string>)
    requires p.mediaUrls == Some(urls) && 2 <= |urls| <= MaxCarouselItems
    requires forall i :: 0 <= i < |urls| ==> !IsVideoUrl(urls[i])
    ensures var run := CarouselRun(rm, Fresh(c), cfg, p);
            var ids := CreatedIds(run.state.log);
            run.outcome.Ok? ==>
              && |ids| == |urls| + 1
              && (forall j :: 0 <= j < |urls| ==> ids[j] in CheckedIds(run.state.log))
              && exists before: seq<Event>, reply: Reply, after: seq<Event> ::
                   && run.state.log
                      == before + [Created(CarouselParams(cfg, ids[..|urls|], p.content, p.locationId), reply)] + after
                   && (forall j :: 0 <= j < |urls| ==> ReportedFinished(before, ids[j]))
                   && NoFailedQuery(before)
                   && CheckedIds(after) == []
  {
    MultiImageStages(rm, Fresh(c), cfg, p, urls);
    CarouselStagesQueried(rm, Fresh(c), cfg, p.content, p.locationId, urls);
    CarouselStagesWait(rm, Fresh(c), cfg, p.content, p.locationId, urls);
  }

  /** The stages of a carousel, run one after the other from an empty log: when each
      succeeds, every child container has been queried. */
  lemma CarouselStagesQueried(rm: Remote, s: State, cfg: Config, caption: string,
                              locationId: Option<string>, urls: seq<string>)
    requires s.log == []
    ensures var created := CreateItems(rm, s, cfg, urls, 0, [], true, None, None);
            created.outcome.Ok? ==>
            var childIds := created.outcome.value;
            var polled := PollEach(rm, created.state, childIds, 0);
            var parent := CreateStep(rm, polled.state, CarouselParams(cfg, childIds, caption, locationId));
            polled.outcome.Ok? && parent.outcome.Ok? ==>
            var log := PublishStep(rm, parent.state, parent.outcome.value).state.log;
            var ids := CreatedIds(log);
              && |ids| == |urls| + 1
              && (forall j :: 0 <= j < |urls| ==> ids[j] in CheckedIds(log))
  {
    var created := CreateItems(rm, s, cfg, urls, 0, [], true, None, None);
    if created.outcome.Ok? {
      var childIds := created.outcome.value;
      var polled := PollEach(rm, created.state, childIds, 0);
      var params := CarouselParams(cfg, childIds, caption, locationId);
      var parent := CreateStep(rm, polled.state, params);
      if polled.outcome.Ok? && parent.outcome.Ok? {
        CarouselStagesCreations(rm, s, cfg, caption, locationId, urls);
        CreateItemsIds(rm, s, cfg, urls, 0, [], true, None, None);
        PollEachOnlyQueries(rm, created.state, childIds, 0);
        PollEachChecksAll(rm, created.state, childIds, 0);
        CreateStepSummaries(rm, polled.state, params);
        PublishStepSummaries(rm, parent.state, parent.outcome.value);
        var ids := CreatedIds(PublishStep(rm, parent.state, parent.outcome.value).state.log);
        assert ids == childIds + [parent.outcome.value];
      }
    }
  }

  /** The stages of a carousel, run one after the other from an empty log: when each
      succeeds, every child reported `FINISHED`, with no query failing, before the
      carousel container was created, and no query follows that creation. */
  lemma CarouselStagesWait(rm: Remote, s: State, cfg: Config, caption: string,
                           locationId: Option<string>, urls: seq<string>)
    requires s.log == []
    ensures var created := CreateItems(rm, s, cfg, urls, 0, [], true, None, None);
            created.outcome.Ok? ==>
            var childIds := created.outcome.value;
            var polled := PollEach(rm, created.state, childIds, 0);
            var parent := CreateStep(rm, polled.state, CarouselParams(cfg, childIds, caption, locationId));
            polled.outcome.Ok? && parent.outcome.Ok? ==>
            var log := PublishStep(rm, parent.state, parent.outcome.value).state.log;
            var ids := CreatedIds(log);
              && |ids| == |urls| + 1
              && exists before: seq<Event>, reply: Reply, after: seq<Event> ::
                   && log == before + [Created(CarouselParams(cfg, ids[..|urls|], caption, locationId), reply)] + after
                   && (forall j :: 0 <= j < |urls| ==> ReportedFinished(before, ids[j]))
                   && NoFailedQuery(before)
                   && CheckedIds(after) == []
  {
    var created := CreateItems(rm, s, cfg, urls, 0, [], true, None, None);
    if created.outcome.Ok? {
      var childIds := created.outcome.value;
      var polled := PollEach(rm, created.state, childIds, 0);
      var params := CarouselParams(cfg, childIds, caption, locationId);
      var parent := CreateStep(rm, polled.state, params);
      if polled.outcome.Ok? && parent.outcome.Ok? {
        CreateItemsIds(rm, s, cfg, urls, 0, [], true, None, None);
        CreateItemsOnlyCreates(rm, s, cfg, urls, 0, [], true, None, None);
        NoQueriesNoFailedQuery(created.state.log);
        PollEachOnlyQueries(rm, created.state, childIds, 0);
        PollEachReportsFinished(rm, created.state, childIds, 0);
        PollEachNoFailedQuery(rm, created.state, childIds, 0);
        CreateStepSummaries(rm, polled.state, params);
        var published := PublishStep(rm, parent.state, parent.outcome.value);
        PublishStepSummaries(rm, parent.state, parent.outcome.value);
        var ids := CreatedIds(published.state.log);
        assert ids == childIds + [parent.outcome.value];
        assert ids[..|urls|] == childIds;
        assert forall j :: 0 <= j < |urls| ==> ids[j] == childIds[j];
        var reply := rm.onCreate(polled.state.at.creates);
        var after := [Published(parent.outcome.value, rm.onPublish(parent.state.at.publishes))];
        assert CheckedIds(after) == [] by {
          assert after[1..] == [];
        }
        assert published.state.log == polled.state.log + [Created(params, reply)] + after;
      }
    }
  }

  /** A successful carousel of two to ten images publishes the carousel container
      alone, never a child, and says so in its result. */
  lemma MultiImagePublishesParent(rm: Remote, c: Cursor, cfg: Config, p: Payload, urls: seq<string>)
    requires p.mediaUrls == Some(urls) && 2 <= |urls| <= MaxCarouselItems
    requires forall i :: 0 <= i < |urls| ==> !IsVideoUrl(urls[i])
    ensures var run := CarouselRun(rm, Fresh(c), cfg, p);
            var ids := CreatedIds(run.state.log);
            run.outcome.Ok? ==>
              && |ids| == |urls| + 1
              && Publications(run.state.log) == [ids[|urls|]]
              && run.outcome.value.detail == CarouselDetail
  {
    var s := Fresh(c);
    MultiImageStages(rm, s, cfg, p, urls);
    var created := CreateItems(rm, s, cfg, urls, 0, [], true, None, None);
    if CarouselRun(rm, s, cfg, p).outcome.Ok? {
      CreateItemsIds(rm, s, cfg, urls, 0, [], true, None, None);
      CreateItemsOnlyCreates(rm, s, cfg, urls, 0, [], true, None, None);
      var childIds := created.outcome.value;
      var polled := PollEach(rm, created.state, childIds, 0);
      PollEachOnlyQueries(rm, created.state, childIds, 0);
      var params := CarouselParams(cfg, childIds, p.content, p.locationId);
      var parent := CreateStep(rm, polled.state, params);
      CreateStepSummaries(rm, polled.state, params);
      PublishStepSummaries(rm, parent.state, parent.outcome.value);
    }
  }

  /** The `children` field of a carousel container splits back into the child ids,
      provided no id contains a comma. */
  lemma CarouselChildrenRoundTrip(cfg: Config, ids: seq<string>, caption: string, locationId: Option<string>)
    requires |ids| >= 1
    requires forall k :: 0 <= k < |ids| ==> ',' !in ids[k]
    ensures Split(CarouselParams(cfg, ids, caption, locationId)["children"], ',') == ids
  {
    CarouselParamsFields(cfg, ids, caption, locationId);
    SplitJoin(ids, ',');
  }

  // ---------------------------------------------------------------- Reels

  /** Reels creates one container, with the Reels parameters of the first URL. */
  lemma ReelsCreatesOne(rm: Remote, c: Cursor, cfg: Config, p: Payload)
    requires HasMedia(p.mediaUrls)
    ensures var run := ReelsRun(rm, Fresh(c), cfg, p);
            Creations(run.state.log) == [ReelsParams(cfg, p.mediaUrls.value[0], p)]
  {
    var s := Fresh(c);
    var params := ReelsParams(cfg, p.mediaUrls.value[0], p);
    var created := CreateStep(rm, s, params);
    CreateStepSummaries(rm, s, params);
    if created.outcome.Ok? {
      var id := created.outcome.value;
      var polled := PollFrom(rm, created.state, id, 0, MaxAttempts, DelayMs);
      PollOnlyQueries(rm, created.state, id, 0, MaxAttempts, DelayMs);
      if polled.outcome.Ok? {
        PublishStepSummaries(rm, polled.state, id);
      }
    }
  }

  /** Once its container exists, Reels always waits for it, and queries no other
      container. */
  lemma ReelsAlwaysWaits(rm: Remote, c: Cursor, cfg: Config, p: Payload)
    requires HasMedia(p.mediaUrls)
    ensures var run := ReelsRun(rm, Fresh(c), cfg, p);
            var ids := CreatedIds(run.state.log);
            ids != [] ==>
              && |ids| == 1
              && ids[0] in CheckedIds(run.state.log)
              && forall x :: x in CheckedIds(run.state.log) ==> x == ids[0]
  {
    var s := Fresh(c);
    var params := ReelsParams(cfg, p.mediaUrls.value[0], p);
    var created := CreateStep(rm, s, params);
    CreateStepSummaries(rm, s, params);
    if created.outcome.Ok? {
      var id := created.outcome.value;
      var polled := PollFrom(rm, created.state, id, 0, MaxAttempts, DelayMs);
      PollOnlyQueries(rm, created.state, id, 0, MaxAttempts, DelayMs);
      PollQueriesAbout(rm, created.state, id, 0, MaxAttempts, DelayMs);
      PollQueriesContainer(rm, created.state, id, 0, MaxAttempts, DelayMs);
      if polled.outcome.Ok? {
        PublishStepSummaries(rm, polled.state, id);
      }
    }
  }

  /** A successful Reels publishes its one container. */
  lemma ReelsPublishesContainer(rm: Remote, c: Cursor, cfg: Config, p: Payload)
    requires HasMedia(p.mediaUrls)
    ensures var run := ReelsRun(rm, Fresh(c), cfg, p);
            run.outcome.Ok? ==>
              && |CreatedIds(run.state.log)| == 1
              && Publications(run.state.log) == CreatedIds(run.state.log)
              && run.outcome.value.detail == ReelsDetail
  {
    var s := Fresh(c);
    var params := ReelsParams(cfg, p.mediaUrls.value[0], p);
    var created := CreateStep(rm, s, params);
    CreateStepSummaries(rm, s, params);
    if created.outcome.Ok? {
      var id := created.outcome.value;
      var polled := PollFrom(rm, created.state, id, 0, MaxAttempts, DelayMs);
      PollOnlyQueries(rm, created.state, id, 0, MaxAttempts, DelayMs);
      if polled.outcome.Ok? {
        PublishStepSummaries(rm, polled.state, id);
      }
    }
  }

  /** Waiting for a container and then publishing it, from a log with no failed
      query: when the wait succeeds, the publish call comes last, after the container
      reported `FINISHED` and with no query failing before it. */
  lemma WaitThenPublish(rm: Remote, s: State, id: string)
    requires NoFailedQuery(s.log)
    ensures var polled := PollFrom(rm, s, id, 0, MaxAttempts, DelayMs);
            polled.outcome.Ok? ==>
              exists before: seq<Event>, reply: Reply ::
                && PublishStep(rm, polled.state, id).state.log == before + [Published(id, reply)]
                && ReportedFinished(before, id)
                && NoFailedQuery(before)
  {
    var polled := PollFrom(rm, s, id, 0, MaxAttempts, DelayMs);
    PollReportsFinished(rm, s, id, 0, MaxAttempts, DelayMs);
    PollNoFailedQuery(rm, s, id, 0, MaxAttempts, DelayMs);
    if polled.outcome.Ok? {
      var reply := rm.onPublish(polled.state.at.publishes);
      assert PublishStep(rm, polled.state, id).state.log == polled.state.log + [Published(id, reply)];
    }
  }

  /** The log made exactly one container, and its last call published that container
      after the container had reported `FINISHED`, with no query failing before. */
  ghost predicate PublishedAfterFinished(log: seq<Event>)
  {
    && |CreatedIds(log)| == 1
    && exists before: seq<Event>, reply: Reply ::
         && log == before + [Published(CreatedIds(log)[0], reply)]
         && ReportedFinished(before, CreatedIds(log)[0])
         && NoFailedQuery(before)
  }

  /** One container made, waited for and published, from an empty log: the only
      container created is the one published, and the publish is the last call, made
      after that container reported `FINISHED` and with no query failing before it. */
  lemma CreateWaitPublish(rm: Remote, s: State, params: Params)
    requires s.log == []
    ensures var created := CreateStep(rm, s, params);
            created.outcome.Ok? ==>
            var id := created.outcome.value;
            var polled := PollFrom(rm, created.state, id, 0, MaxAttempts, DelayMs);
            polled.outcome.Ok? ==>
            PublishedAfterFinished(PublishStep(rm, polled.state, id).state.log)
  {
    var created := CreateStep(rm, s, params);
    if created.outcome.Ok? {
      CreateStepSummaries(rm, s, params);
      NoFailedQueryAppend(s.log, Created(params, rm.onCreate(s.at.creates)));
      var id := created.outcome.value;
      var polled := PollFrom(rm, created.state, id, 0, MaxAttempts, DelayMs);
      PollOnlyQueries(rm, created.state, id, 0, MaxAttempts, DelayMs);
      WaitThenPublish(rm, created.state, id);
      if polled.outcome.Ok? {
        PublishStepSummaries(rm, polled.state, id);
        var log := PublishStep(rm, polled.state, id).state.log;
        assert CreatedIds(log) == [id];
        var before: seq<Event>, reply: Reply :|
          && log == before + [Published(id, reply)]
          && ReportedFinished(before, id)
          && NoFailedQuery(before);
        assert log == before + [Published(CreatedIds(log)[0], reply)];
      }
    }
  }

  /** A successful Reels ends with the publish call, made after its container
      reported `FINISHED` and with no query failing before it. */
  lemma ReelsPublishesAfterFinished(rm: Remote, c: Cursor, cfg: Config, p: Payload)
    requires HasMedia(p.mediaUrls)
    ensures var run := ReelsRun(rm, Fresh(c), cfg, p);
            run.outcome.Ok? ==> PublishedAfterFinished(run.state.log)
  {
    var s := Fresh(c);
    var params := ReelsParams(cfg, p.mediaUrls.value[0], p);
    CreateWaitPublish(rm, s, params);
    var created := CreateStep(rm, s, params);
    if created.outcome.Ok? {
      var id := created.outcome.value;
      var polled := PollFrom(rm, created.state, id, 0, MaxAttempts, DelayMs);
      if polled.outcome.Ok? {
        assert ReelsRun(rm, s, cfg, p).state.log == PublishStep(rm, polled.state, id).state.log;
      }
    }
  }

  /** Reels reads nothing of the media list beyond its first URL. */
  lemma ReelsIgnoresLaterUrls(rm: Remote, s: State, cfg: Config, p: Payload)
    requires HasMedia(p.mediaUrls)
    ensures ReelsRun(rm, s, cfg, p) == ReelsRun(rm, s, cfg, p.(mediaUrls := Some([p.mediaUrls.value[0]])))
  {
    var q := p.(mediaUrls := Some([p.mediaUrls.value[0]]));
    assert ReelsParams(cfg, p.mediaUrls.value[0], p) == ReelsParams(cfg, q.mediaUrls.value[0], q);
  }

  // ---------------------------------------------------------------- Stories

  /** Stories creates one container, with the Stories parameters of the first URL. */
  lemma StoriesCreatesOne(rm: Remote, c: Cursor, cfg: Config, p: Payload)
    requires HasMedia(p.mediaUrls)
    ensures var run := StoriesRun(rm, Fresh(c), cfg, p);
            Creations(run.state.log) == [StoriesParams(cfg, p.mediaUrls.value[0])]
  {
    var s := Fresh(c);
    var url := p.mediaUrls.value[0];
    var created := CreateStep(rm, s, StoriesParams(cfg, url));
    CreateStepSummaries(rm, s, StoriesParams(cfg, url));
    if created.outcome.Ok? {
      var id := created.outcome.value;
      var polled := if IsVideoUrl(url) then PollFrom(rm, created.state, id, 0, MaxAttempts, DelayMs)
                    else Run(Ok(()), created.state);
      PollOnlyQueries(rm, created.state, id, 0, MaxAttempts, DelayMs);
      if polled.outcome.Ok? {
        PublishStepSummaries(rm, polled.state, id);
      }
    }
  }

  /** Once its container exists, Stories waits for it exactly when the URL is
      classified as a video, and queries no other container. */
  lemma StoriesWaitsOnlyForVideo(rm: Remote, c: Cursor, cfg: Config, p: Payload)
    requires HasMedia(p.mediaUrls)
    ensures var run := StoriesRun(rm, Fresh(c), cfg, p);
            var ids := CreatedIds(run.state.log);
            ids != [] ==>
              && |ids| == 1
              && (CheckedIds(run.state.log) != [] <==> IsVideoUrl(p.mediaUrls.value[0]))
              && forall x :: x in CheckedIds(run.state.log) ==> x == ids[0]
  {
    var s := Fresh(c);
    var url := p.mediaUrls.value[0];
    var created := CreateStep(rm, s, StoriesParams(cfg, url));
    CreateStepSummaries(rm, s, StoriesParams(cfg, url));
    if created.outcome.Ok? {
      var id := created.outcome.value;
      var polled := if IsVideoUrl(url) then PollFrom(rm, created.state, id, 0, MaxAttempts, DelayMs)
                    else Run(Ok(()), created.state);
      PollOnlyQueries(rm, created.state, id, 0, MaxAttempts, DelayMs);
      PollQueriesAbout(rm, created.state, id, 0, MaxAttempts, DelayMs);
      PollQueriesContainer(rm, created.state, id, 0, MaxAttempts, DelayMs);
      if polled.outcome.Ok? {
        PublishStepSummaries(rm, polled.state, id);
      }
    }
  }

  /** A successful Stories publishes its one container. */
  lemma StoriesPublishesContainer(rm: Remote, c: Cursor, cfg: Config, p: Payload)
    requires HasMedia(p.mediaUrls)
    ensures var run := StoriesRun(rm, Fresh(c), cfg, p);
            run.outcome.Ok? ==>
              && |CreatedIds(run.state.log)| == 1
              && Publications(run.state.log) == CreatedIds(run.state.log)
              && run.outcome.value.detail == StoriesDetail
  {
    var s := Fresh(c);
    var url := p.mediaUrls.value[0];
    var created := CreateStep(rm, s, StoriesParams(cfg, url));
    CreateStepSummaries(rm, s, StoriesParams(cfg, url));
    if created.outcome.Ok? {
      var id := created.outcome.value;
      var polled := if IsVideoUrl(url) then PollFrom(rm, created.state, id, 0, MaxAttempts, DelayMs)
                    else Run(Ok(()), created.state);
      PollOnlyQueries(rm, created.state, id, 0, MaxAttempts, DelayMs);
      if polled.outcome.Ok? {
        PublishStepSummaries(rm, polled.state, id);
      }
    }
  }

  /** A successful Stories of a video ends with the publish call, made after its
      container reported `FINISHED` and with no query failing before it. */
  lemma StoriesVideoPublishesAfterFinished(rm: Remote, c: Cursor, cfg: Config, p: Payload)
    requires HasMedia(p.mediaUrls) && IsVideoUrl(p.mediaUrls.value[0])
    ensures var run := StoriesRun(rm, Fresh(c), cfg, p);
            run.outcome.Ok? ==> PublishedAfterFinished(run.state.log)
  {
    var s := Fresh(c);
    var params := StoriesParams(cfg, p.mediaUrls.value[0]);
    CreateWaitPublish(rm, s, params);
    var created := CreateStep(rm, s, params);
    if created.outcome.Ok? {
      var id := created.outcome.value;
      var polled := PollFrom(rm, created.state, id, 0, MaxAttempts, DelayMs);
      if polled.outcome.Ok? {
        assert StoriesRun(rm, s, cfg, p).state.log == PublishStep(rm, polled.state, id).state.log;
      }
    }
  }

  // ---------------------------------------------------------------- video classifier

  /** The classifier ignores letter case. */
  lemma VideoUrlIgnoresCase(url: string)
    ensures IsVideoUrl(url) <==> IsVideoUrl(Lower(url))
  {
    LowerIdempotent(url);
  }

  /** The classifier looks for an extension anywhere in the lower-cased URL, not
      only at its end. */
  lemma VideoUrlBySubstring(url: string)
    ensures IsVideoUrl(url) ==> exists k, i :: 0 <= k < |VideoExtensions| && OccursAt(Lower(url), VideoExtensions[k], i)
    ensures (exists k, i :: 0 <= k < |VideoExtensions| && OccursAt(Lower(url), VideoExtensions[k], i)) ==> IsVideoUrl(url)
  {
    var lowerUrl := Lower(url);
    if IsVideoUrl(url) {
      var k :| 0 <= k < |VideoExtensions| && Contains(lowerUrl, VideoExtensions[k]);
      ContainsSpec(lowerUrl, VideoExtensions[k]);
      var i :| OccursAt(lowerUrl, VideoExtensions[k], i);
      assert 0 <= k < |VideoExtensions| && OccursAt(lowerUrl, VideoExtensions[k], i);
    }
    if exists k, i :: 0 <= k < |VideoExtensions| && OccursAt(lowerUrl, VideoExtensions[k], i) {
      var k, i :| 0 <= k < |VideoExtensions| && OccursAt(lowerUrl, VideoExtensions[k], i);
      ContainsSpec(lowerUrl, VideoExtensions[k]);
      assert Contains(lowerUrl, VideoExtensions[k]);
      assert IsVideoUrl(url);
    }
  }

  /** An extension inside a longer word counts: a URL whose lower-cased form
      contains `.movie` is taken for a video, since `.movie` contains `.mov`. */
  lemma MovieUrlIsVideo(url: string, i: nat)
    requires OccursAt(Lower(url), ".movie", i)
    ensures IsVideoUrl(url)
  {
    var lowerUrl := Lower(url);
    assert lowerUrl[i..i + 4] == lowerUrl[i..i + 6][..4] == ".mov";
    assert VideoExtensions[1] == ".mov" && OccursAt(lowerUrl, VideoExtensions[1], i);
    VideoUrlBySubstring(url);
  }

  /** Every extension starts with a dot, so a URL taken for a video has a dot. */
  lemma VideoUrlHasDot(url: string)
    ensures IsVideoUrl(url) ==> '.' in url
  {
    if IsVideoUrl(url) {
      VideoUrlBySubstring(url);
      var k, i :| 0 <= k < |VideoExtensions| && OccursAt(Lower(url), VideoExtensions[k], i);
      assert VideoExtensions[k][0] == '.';
      assert Lower(url)[i] == Lower(url)[i..i + |VideoExtensions[k]|][0] == '.';
      LowerKeepsDot(url);
    }
  }

  /** Lower-casing is not ASCII-only: U+212A KELVIN SIGN lower-cases to `k`, so an
      extension spelled `.M` KELVIN SIGN `V` is read as `.mkv`. */
  lemma KelvinSignExtensionIsVideo(prefix: string, suffix: string)
    ensures IsVideoUrl(prefix + ".M\U{212A}V" + suffix)
  {
    LowerKelvinExtension();
    ExtensionInsideIsVideo(prefix, ".M\U{212A}V", suffix, 3);
  }

  /** U+0130 lower-cases to `i` and a combining dot, so an extension spelled `.AV`
      U+0130 is read as one holding `.avi`. */
  lemma DottedCapitalIExtensionIsVideo(prefix: string, suffix: string)
    ensures IsVideoUrl(prefix + ".AV\U{0130}" + suffix)
  {
    LowerDottedCapitalIExtension();
    ExtensionInsideIsVideo(prefix, ".AV\U{0130}", suffix, 2);
  }

  /** The lower-cased form of `.M` KELVIN SIGN `V` starts with `.mkv`. */
  lemma LowerKelvinExtension()
    ensures Lower(".M\U{212A}V")[..4] == ".mkv"
  {
    var ext := ".M\U{212A}V";
    assert ext[1..][1..][1..][1..] == [];
  }

  /** The lower-cased form of `.AV` U+0130 starts with `.avi`. */
  lemma LowerDottedCapitalIExtension()
    ensures Lower(".AV\U{0130}")[..4] == ".avi"
  {
    var ext := ".AV\U{0130}";
    assert ext[1..][1..][1..][1..] == [];
  }

  /** A URL is a video when some part of it lower-cases to a text that starts with
      the k-th extension. */
  lemma ExtensionInsideIsVideo(prefix: string, part: string, suffix: string, k: nat)
    requires k < |VideoExtensions|
    requires |VideoExtensions[k]| <= |Lower(part)| && Lower(part)[..|VideoExtensions[k]|] == VideoExtensions[k]
    ensures IsVideoUrl(prefix + part + suffix)
  {
    var url := prefix + part + suffix;
    LowerConcat(prefix + part, suffix);
    LowerConcat(prefix, part);
    OccursInMiddle(Lower(prefix), Lower(part), Lower(suffix), VideoExtensions[k]);
    VideoUrlBySubstring(url);
  }
}
