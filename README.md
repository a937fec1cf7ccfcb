# Instagram publishing, modelled in Dafny

This project models the Instagram part of a social-media scheduling backend. It has two parts:

- **`InstagramPublisher`** drives the Instagram Graph API's container protocol:
  1. It checks its credentials and picks a mode (`CAROUSEL`, `REELS`, `STORIES`) from the media type.
  2. It validates the media list.
  3. It creates media containers.
  4. It polls their `status_code` until `FINISHED` (at most 30 queries, 2000 ms apart).
  5. It publishes the container, or the parent carousel container.
- **`InstagramService`** keeps the table of Instagram posts:
  - `upload` inserts a `QUEUED` record, calls the publisher and settles the record as `PUBLISHED` or `FAILED`;
  - `repost` republishes one of the caller's records and overwrites it in place.

Layout:

- `wrappers.dfy`: `Option` and `Result`.
- `text.dfy`: the string operations the publisher relies on: lower-casing, `includes`, `join`/`split`, decimal rendering.
- `graph_api.dfy`: the remote side.
  - `Gateway` is a class whose calls append to a ghost call log. Its answers come from a scripted `Remote`, which gives the reply to the n-th call of each kind.
  - Summaries of a log: creations, issued ids, status queries, publications, pauses.
- `media.dfy`: the publisher's pure decisions: configuration check, video classifier, mode dispatch, carousel validation, the parameter maps of the four container kinds, reading a reply, and the exception messages (a `Failure` value rendered by `Message`).
- `runs.dfy`: reference definitions. Each is a pure function giving one publisher operation's exact call sequence and outcome from a given gateway state.
- `publisher.dfy`: the class `InstagramPublisher`. Its methods have the source's loops and early exits. Each is proved to return, and to leave the gateway in, exactly what its reference run says.
- `run_facts.dfy` and `publisher_facts.dfy`: what the runs promise. This covers the poller's bounds and verdicts, dispatch, validation before any call, the carousel, Reels and Stories call sequences, and the classifier.
- `service.dfy`: the class `InstagramService`, with a `map` of post records, the next id and a ghost log of table writes. Its methods are `Upload` and `Repost`, and its invariant is that no stored record is left `QUEUED` between calls.

## Model

| member | source | states |
|---|---|---|
| Text.Lower | social_posting_schedule_backend/src/posts/platforms/instagram.publisher.ts:403 | `toLowerCase` for every character whose lower-case form holds an ASCII character: ASCII capitals, U+212A KELVIN SIGN to `k`, U+0130 to `i` and U+0307; at most two characters per input character |
| Text.LowerHasNoCapital | social_posting_schedule_backend/src/posts/platforms/instagram.publisher.ts:403 | a lower-cased string holds no ASCII capital |
| Text.LowerIdempotent | social_posting_schedule_backend/src/posts/platforms/instagram.publisher.ts:403 | lower-casing twice is lower-casing once |
| Text.LowerKeepsDot | social_posting_schedule_backend/src/posts/platforms/instagram.publisher.ts:402-404 | lower-casing neither creates nor removes a dot |
| Text.ContainsSpec | social_posting_schedule_backend/src/posts/platforms/instagram.publisher.ts:404 | `includes` holds exactly when the needle occurs at some index |
| Text.SplitJoin | social_posting_schedule_backend/src/posts/platforms/instagram.publisher.ts:292 | joining comma-free ids with `,` and splitting again gives back the ids |
| Text.NatToString | social_posting_schedule_backend/src/posts/platforms/instagram.publisher.ts:372 | the attempt count in the exhaustion message is printed in decimal: digits only, standing for the number, with no leading zero |
| GraphApi.Gateway.constructor | social_posting_schedule_backend/src/posts/platforms/instagram.publisher.ts:165-190 | a fresh gateway has made no call |
| GraphApi.Gateway.CreateContainer | social_posting_schedule_backend/src/posts/platforms/instagram.publisher.ts:185-201 | a creation call gets the remote's next creation reply, bumps only the creation counter and logs the parameters sent |
| GraphApi.Gateway.CheckStatus | social_posting_schedule_backend/src/posts/platforms/instagram.publisher.ts:378-398 | a status query gets the remote's next status reply and logs the container queried |
| GraphApi.Gateway.PublishContainer | social_posting_schedule_backend/src/posts/platforms/instagram.publisher.ts:320-343 | a publish call gets the remote's next publish reply and logs the container published |
| GraphApi.Gateway.Sleep | social_posting_schedule_backend/src/posts/platforms/instagram.publisher.ts:366-368 | a pause only logs itself; no counter moves |
| Media.MissingConfig | social_posting_schedule_backend/src/posts/platforms/instagram.publisher.ts:25-27 | `access token` is listed iff the token is empty, `Instagram User ID` iff the user id is empty, in that order; the list is empty iff the configuration is complete |
| Media.EffectiveMediaType | social_posting_schedule_backend/src/posts/platforms/instagram.publisher.ts:36 | an absent or empty media type reads as `CAROUSEL`; any other is kept |
| Media.SelectModeCases | social_posting_schedule_backend/src/posts/platforms/instagram.publisher.ts:36-46 | exactly the three known names select a mode (the one they name); every other name fails with `InvalidMediaType` naming it; a falsy type selects the carousel |
| Media.AnyVideo | social_posting_schedule_backend/src/posts/platforms/instagram.publisher.ts:109-115 | true iff some URL of the list is classified as a video |
| Media.CarouselErrorCases | social_posting_schedule_backend/src/posts/platforms/instagram.publisher.ts:100-115 | a carousel is accepted iff its list is present, non-empty, has at most 10 URLs and no video; the first rule broken, in source order, names the error |
| Media.ShareToFeedField | social_posting_schedule_backend/src/posts/platforms/instagram.publisher.ts:222 | `share_to_feed` is `'false'` iff the flag is `false`, and `'true'` when it is absent or true |
| Media.ItemParamsFields | social_posting_schedule_backend/src/posts/platforms/instagram.publisher.ts:166-183 | an image container sends the token, `image_url`, `media_type=IMAGE` and `is_carousel_item`; it sends `caption`/`location_id` only for a non-carousel item and only when non-empty |
| Media.ItemParamsList | social_posting_schedule_backend/src/posts/platforms/instagram.publisher.ts:122-130 | one image-container parameter map per URL, in list order |
| Media.ReelsParamsFields | social_posting_schedule_backend/src/posts/platforms/instagram.publisher.ts:209-226 | a Reels container sends the token, `video_url`, `media_type=REELS`, the caption and `share_to_feed`; `cover_url`/`location_id` only when non-empty |
| Media.StoriesParamsFields | social_posting_schedule_backend/src/posts/platforms/instagram.publisher.ts:252-262 | a Stories container sends exactly one of `video_url` and `image_url`, by the classifier, and never a caption or location |
| Media.CarouselParamsFields | social_posting_schedule_backend/src/posts/platforms/instagram.publisher.ts:289-299 | a parent carousel container sends the children joined by commas, the caption, and `location_id` only when non-empty |
| Media.ReplyResult | social_posting_schedule_backend/src/posts/platforms/instagram.publisher.ts:192-201 | a reply is read as the issued id, or as an `Instagram API error` carrying the remote's reason |
| Media.PublishReplyAsWritten | social_posting_schedule_backend/src/posts/platforms/instagram.publisher.ts:332-343 | as the source has it, a rejected publish is always reported as `Unknown error` |
| Media.PublishReplyLosesReason | social_posting_schedule_backend/src/posts/platforms/instagram.publisher.ts:333-336 | for every reason other than `Unknown error`, that as-written reading differs from the reading every other call uses |
| Media.StatusResultReads | social_posting_schedule_backend/src/posts/platforms/instagram.publisher.ts:389-397 | a failed status query is an API error; otherwise the status is the `status_code`, with a missing or empty one read as `UNKNOWN` |
| Media.ReadinessCases | social_posting_schedule_backend/src/posts/platforms/instagram.publisher.ts:357-364 | `FINISHED` ends the wait successfully; `ERROR` and `EXPIRED` fail it; every other status keeps it going |
| Media.ApiFailureMessage | social_posting_schedule_backend/src/posts/platforms/instagram.publisher.ts:192-196 | each failure is rendered as the source's exception text; the stored text opens with `Instagram API error: ` iff the failure is a refused remote call, and the remote's reason follows it unchanged; no configuration, validation, dispatch or container text opens that way (lines 29-31, 46, 55, 77, 101, 105, 112, 363, 372-373) |
| Media.ContainerMessage | social_posting_schedule_backend/src/posts/platforms/instagram.publisher.ts:363 | the stored text opens with `Container ` iff a container failed (line 363) or never became ready (lines 372-373), and the container's id follows it; no other failure text opens that way |
| Media.NotReadyMessageReadsCount | social_posting_schedule_backend/src/posts/platforms/instagram.publisher.ts:371-374 | the never-ready text carries, right after the container id and ` did not become ready within `, decimal digits that read back as the attempt count |
| Runs.CreateItems | social_posting_schedule_backend/src/posts/platforms/instagram.publisher.ts:121-130 | a successful creation of the item containers returns one id per URL |
| Publisher.InstagramPublisher.constructor | social_posting_schedule_backend/src/posts/platforms/instagram.publisher.ts:19-21 | the publisher keeps its configuration and gateway |
| Publisher.InstagramPublisher.Publish | social_posting_schedule_backend/src/posts/platforms/instagram.publisher.ts:23-51 | result and calls made are exactly those of `Runs.PublishRun`: configuration check, then dispatch by mode |
| Publisher.InstagramPublisher.PublishReels | social_posting_schedule_backend/src/posts/platforms/instagram.publisher.ts:53-73 | exactly `Runs.ReelsRun`: require a URL, create, wait, publish |
| Publisher.InstagramPublisher.PublishStories | social_posting_schedule_backend/src/posts/platforms/instagram.publisher.ts:75-97 | exactly `Runs.StoriesRun`: require a URL, create, wait only for a video, publish |
| Publisher.InstagramPublisher.PublishCarousel | social_posting_schedule_backend/src/posts/platforms/instagram.publisher.ts:99-157 | exactly `Runs.CarouselRun`: validate, create the items, wait for all, publish the single item or create and publish the parent |
| Publisher.InstagramPublisher.CreateCarouselItems | social_posting_schedule_backend/src/posts/platforms/instagram.publisher.ts:121-130 | the loop makes exactly the calls of `Runs.CreateItems` and collects the issued ids in order |
| Publisher.InstagramPublisher.CreateCarouselItemContainer | social_posting_schedule_backend/src/posts/platforms/instagram.publisher.ts:159-202 | one creation call with `ItemParams`, read by `ReplyResult` |
| Publisher.InstagramPublisher.CreateReelsContainer | social_posting_schedule_backend/src/posts/platforms/instagram.publisher.ts:204-245 | one creation call with `ReelsParams` |
| Publisher.InstagramPublisher.CreateStoriesContainer | social_posting_schedule_backend/src/posts/platforms/instagram.publisher.ts:247-281 | one creation call with `StoriesParams` |
| Publisher.InstagramPublisher.CreateCarouselContainer | social_posting_schedule_backend/src/posts/platforms/instagram.publisher.ts:283-318 | one creation call with `CarouselParams` |
| Publisher.InstagramPublisher.PublishContainer | social_posting_schedule_backend/src/posts/platforms/instagram.publisher.ts:320-344 | one publish call for the container, read by `ReplyResult` |
| Publisher.InstagramPublisher.CheckContainerStatus | social_posting_schedule_backend/src/posts/platforms/instagram.publisher.ts:377-398 | one status query, read by `StatusResult` |
| Publisher.InstagramPublisher.WaitForContainerReady | social_posting_schedule_backend/src/posts/platforms/instagram.publisher.ts:346-375 | the polling loop is exactly `Runs.PollFrom` from attempt 0 |
| Publisher.InstagramPublisher.WaitForAllContainersReady | social_posting_schedule_backend/src/posts/platforms/instagram.publisher.ts:133-135 | waiting for every container is exactly `Runs.PollEach` |
| RunFacts.PollFromShift | social_posting_schedule_backend/src/posts/platforms/instagram.publisher.ts:346-375 | the wait's outcome and calls do not depend on the calls logged before it |
| RunFacts.PollEachShift | social_posting_schedule_backend/src/posts/platforms/instagram.publisher.ts:133-135 | the same for waiting on a list of containers |
| RunFacts.CreateItemsShift | social_posting_schedule_backend/src/posts/platforms/instagram.publisher.ts:121-130 | the same for creating the item containers |
| RunFacts.CarouselRunShift | social_posting_schedule_backend/src/posts/platforms/instagram.publisher.ts:99-157 | the same for the carousel path |
| RunFacts.ReelsRunShift | social_posting_schedule_backend/src/posts/platforms/instagram.publisher.ts:53-73 | the same for the Reels path |
| RunFacts.StoriesRunShift | social_posting_schedule_backend/src/posts/platforms/instagram.publisher.ts:75-97 | the same for the Stories path |
| RunFacts.PublishRunShift | social_posting_schedule_backend/src/posts/platforms/instagram.publisher.ts:23-51 | the same for `publish`, so facts proved from an empty log hold after any history |
| RunFacts.PollOnlyQueries | social_posting_schedule_backend/src/posts/platforms/instagram.publisher.ts:353-369 | the wait makes status queries and pauses only: no creation, no publish |
| RunFacts.PollQueriesAbout | social_posting_schedule_backend/src/posts/platforms/instagram.publisher.ts:354 | every status query of the wait is about its own container |
| RunFacts.PollQueriesContainer | social_posting_schedule_backend/src/posts/platforms/instagram.publisher.ts:353-354 | when any attempt remains, the wait queries its container |
| RunFacts.PollCounts | social_posting_schedule_backend/src/posts/platforms/instagram.publisher.ts:353-369 | at most one query per remaining attempt, and at least one if any remains |
| RunFacts.PollStops | social_posting_schedule_backend/src/posts/platforms/instagram.publisher.ts:354-364 | the wait stops at the first query that fails or reports `FINISHED`, `ERROR` or `EXPIRED`, and returns that verdict |
| RunFacts.PollStopsCounts | social_posting_schedule_backend/src/posts/platforms/instagram.publisher.ts:353-369 | stopping at the k-th query means k + 1 queries and k pauses |
| RunFacts.PollExhausts | social_posting_schedule_backend/src/posts/platforms/instagram.publisher.ts:353-374 | when every remaining query keeps the wait going, it fails with the not-ready error |
| RunFacts.PollExhaustsCounts | social_posting_schedule_backend/src/posts/platforms/instagram.publisher.ts:353-369 | giving up means one query per attempt and one pause fewer |
| RunFacts.FirstStop | social_posting_schedule_backend/src/posts/platforms/instagram.publisher.ts:353-369 | every status script either stays pending for n queries or stops at a first k < n |
| RunFacts.PollEachOnlyQueries | social_posting_schedule_backend/src/posts/platforms/instagram.publisher.ts:133-135 | waiting for a list of containers makes status queries and pauses only |
| RunFacts.PollEachChecksAll | social_posting_schedule_backend/src/posts/platforms/instagram.publisher.ts:133-135 | when it succeeds, every container of the list was queried |
| RunFacts.PollReportsFinished | social_posting_schedule_backend/src/posts/platforms/instagram.publisher.ts:353-360 | a wait that succeeds has had its container report `FINISHED`, and earlier reports stay in the log |
| RunFacts.PollNoFailedQuery | social_posting_schedule_backend/src/posts/platforms/instagram.publisher.ts:353-369 | a wait that succeeds has seen no failed query and no `ERROR` or `EXPIRED` status |
| RunFacts.PollEachReportsFinished | social_posting_schedule_backend/src/posts/platforms/instagram.publisher.ts:133-135 | waiting for a list succeeds only when every container of the list reported `FINISHED` |
| RunFacts.PollEachNoFailedQuery | social_posting_schedule_backend/src/posts/platforms/instagram.publisher.ts:133-135 | waiting for a list succeeds only when none of its queries failed or reported `ERROR`/`EXPIRED` |
| RunFacts.NoQueriesNoFailedQuery | social_posting_schedule_backend/src/posts/platforms/instagram.publisher.ts:121-130 | a log without status queries, such as the one the child creations leave, has no failed query |
| RunFacts.CreateItemsOnlyCreates | social_posting_schedule_backend/src/posts/platforms/instagram.publisher.ts:121-130 | creating the items makes creation calls only |
| RunFacts.CreateItemsCount | social_posting_schedule_backend/src/posts/platforms/instagram.publisher.ts:121-130 | never more creation calls than URLs, and exactly one per URL on success |
| RunFacts.CreateItemsCreations | social_posting_schedule_backend/src/posts/platforms/instagram.publisher.ts:121-130 | on success, the calls carry the item parameters of the URLs, in list order |
| RunFacts.CreateItemsIds | social_posting_schedule_backend/src/posts/platforms/instagram.publisher.ts:121-130 | the ids returned are the ids the remote issued, in call order |
| RunFacts.CreateItemsStopsAtFailure | social_posting_schedule_backend/src/posts/platforms/instagram.publisher.ts:121-130 | a rejected creation is the last call made |
| PublishFacts.PollSucceedsIff | social_posting_schedule_backend/src/posts/platforms/instagram.publisher.ts:353-374 | the wait succeeds iff some query within maxAttempts reports `FINISHED` after only pending statuses |
| PublishFacts.ReadyOnThirdQuery | social_posting_schedule_backend/src/posts/platforms/instagram.publisher.ts:353-369 | `IN_PROGRESS`, `IN_PROGRESS`, `FINISHED` succeeds after three queries and two pauses |
| PublishFacts.FailsOnTerminalStatus | social_posting_schedule_backend/src/posts/platforms/instagram.publisher.ts:362-364 | an `ERROR` or `EXPIRED` status fails at once, naming the container and status, with no pause |
| PublishFacts.NotReadyMessageCount | social_posting_schedule_backend/src/posts/platforms/instagram.publisher.ts:371-374 | the not-ready message gives the attempt count as `30` |
| PublishFacts.GivesUpAfterMaxAttempts | social_posting_schedule_backend/src/posts/platforms/instagram.publisher.ts:346-374 | a container that never finishes is queried 30 times with 29 pauses, then fails with the not-ready error for 30 attempts |
| PublishFacts.CreateStepSummaries | social_posting_schedule_backend/src/posts/platforms/instagram.publisher.ts:185-201 | one creation call adds its parameters and any issued id, and nothing else |
| PublishFacts.PublishStepSummaries | social_posting_schedule_backend/src/posts/platforms/instagram.publisher.ts:327-343 | one publish call adds its container to the publications, and nothing else |
| PublishFacts.ConfigFailsFast | social_posting_schedule_backend/src/posts/platforms/instagram.publisher.ts:24-33 | an incomplete configuration fails before any call, listing at least one missing credential |
| PublishFacts.DispatchCases | social_posting_schedule_backend/src/posts/platforms/instagram.publisher.ts:35-46 | with a complete configuration, `CAROUSEL` (or a falsy type), `REELS` and `STORIES` run their path; any other type fails before any call |
| PublishFacts.CarouselRefusesVideo | social_posting_schedule_backend/src/posts/platforms/instagram.publisher.ts:108-115 | a carousel with a video URL fails before any call |
| PublishFacts.SingleImageCarousel | social_posting_schedule_backend/src/posts/platforms/instagram.publisher.ts:117-145 | a one-image carousel makes one non-carousel image container with the caption and location; on success it waited for it and published it directly |
| PublishFacts.MultiImageCreations | social_posting_schedule_backend/src/posts/platforms/instagram.publisher.ts:117-151 | a successful 2–10 image carousel creates one child per URL, in order, without caption, then one parent naming exactly those children |
| PublishFacts.MultiImageWaitsForChildren | social_posting_schedule_backend/src/posts/platforms/instagram.publisher.ts:132-151 | a successful multi-image carousel queried every child; its log splits at the creation of the carousel container into a part where every child reported `FINISHED` and no query failed, and a part with no status query |
| PublishFacts.CarouselStagesCreations | social_posting_schedule_backend/src/posts/platforms/instagram.publisher.ts:120-152 | run from an empty log, the carousel's stages (create the children, wait for each, create the parent, publish it) log one image container per URL in order, then the parent over the issued child ids |
| PublishFacts.CarouselStagesQueried | social_posting_schedule_backend/src/posts/platforms/instagram.publisher.ts:132-135 | when those stages succeed, every child container was queried |
| PublishFacts.CarouselStagesWait | social_posting_schedule_backend/src/posts/platforms/instagram.publisher.ts:132-152 | when those stages succeed, the log splits at the parent's creation: before it every child reported `FINISHED` and no query failed, after it no status query |
| PublishFacts.MultiImagePublishesParent | social_posting_schedule_backend/src/posts/platforms/instagram.publisher.ts:146-156 | a successful multi-image carousel publishes only the parent container |
| PublishFacts.CarouselChildrenRoundTrip | social_posting_schedule_backend/src/posts/platforms/instagram.publisher.ts:292 | the `children` field splits back into the child ids |
| PublishFacts.ReelsCreatesOne | social_posting_schedule_backend/src/posts/platforms/instagram.publisher.ts:53-61 | Reels makes exactly one creation call, with the Reels parameters of the first URL |
| PublishFacts.ReelsAlwaysWaits | social_posting_schedule_backend/src/posts/platforms/instagram.publisher.ts:61-64 | once its container exists, Reels waits for it and queries no other container |
| PublishFacts.ReelsPublishesContainer | social_posting_schedule_backend/src/posts/platforms/instagram.publisher.ts:61-72 | a successful Reels publishes its one container |
| PublishFacts.ReelsIgnoresLaterUrls | social_posting_schedule_backend/src/posts/platforms/instagram.publisher.ts:58 | Reels behaves the same when the list is cut to its first URL |
| PublishFacts.StoriesCreatesOne | social_posting_schedule_backend/src/posts/platforms/instagram.publisher.ts:75-83 | Stories makes exactly one creation call, with the Stories parameters of the first URL |
| PublishFacts.StoriesWaitsOnlyForVideo | social_posting_schedule_backend/src/posts/platforms/instagram.publisher.ts:85-88 | once its container exists, Stories queries it iff the URL is a video, and no other container |
| PublishFacts.StoriesPublishesContainer | social_posting_schedule_backend/src/posts/platforms/instagram.publisher.ts:83-96 | a successful Stories publishes its one container |
| PublishFacts.WaitThenPublish | social_posting_schedule_backend/src/posts/platforms/instagram.publisher.ts:346-375 | a wait that succeeds is followed by exactly one publish call for the container it waited for, and every call before it includes a `FINISHED` report for that container and no failed or `ERROR`/`EXPIRED` query |
| PublishFacts.CreateWaitPublish | social_posting_schedule_backend/src/posts/platforms/instagram.publisher.ts:61-67 | creating one container, waiting for it and publishing it, from an empty log, leaves a log that made that one container and whose last call publishes it after a `FINISHED` report, with no failed query before |
| PublishFacts.ReelsPublishesAfterFinished | social_posting_schedule_backend/src/posts/platforms/instagram.publisher.ts:61-67 | a successful Reels makes one container, and its last call publishes it after the container reported `FINISHED`, with no failed query before |
| PublishFacts.StoriesVideoPublishesAfterFinished | social_posting_schedule_backend/src/posts/platforms/instagram.publisher.ts:83-91 | a successful video Stories makes one container, and its last call publishes it after the container reported `FINISHED`, with no failed query before |
| PublishFacts.SingleImagePublishesAfterFinished | social_posting_schedule_backend/src/posts/platforms/instagram.publisher.ts:132-139 | a successful one-image carousel makes one container, and its last call publishes it after the container reported `FINISHED`, with no failed query before |
| PublishFacts.VideoUrlIgnoresCase | social_posting_schedule_backend/src/posts/platforms/instagram.publisher.ts:403 | the classifier ignores letter case |
| PublishFacts.VideoUrlBySubstring | social_posting_schedule_backend/src/posts/platforms/instagram.publisher.ts:401-405 | a URL is a video iff some extension occurs anywhere in its lower-cased form |
| PublishFacts.MovieUrlIsVideo | social_posting_schedule_backend/src/posts/platforms/instagram.publisher.ts:404 | an extension inside a longer word counts: a URL containing `.movie` is a video |
| PublishFacts.VideoUrlHasDot | social_posting_schedule_backend/src/posts/platforms/instagram.publisher.ts:402 | a URL taken for a video contains a dot |
| PublishFacts.ExtensionInsideIsVideo | social_posting_schedule_backend/src/posts/platforms/instagram.publisher.ts:403-404 | a URL is a video when any part of it lower-cases to a text that starts with an extension |
| PublishFacts.KelvinSignExtensionIsVideo | social_posting_schedule_backend/src/posts/platforms/instagram.publisher.ts:403-404 | `.M`, KELVIN SIGN, `V` anywhere in a URL makes it a video, read as `.mkv` |
| PublishFacts.DottedCapitalIExtensionIsVideo | social_posting_schedule_backend/src/posts/platforms/instagram.publisher.ts:403-404 | `.AV` followed by U+0130 anywhere in a URL makes it a video, read as `.avi` |
| Service.PayloadAgreesWithRecord | social_posting_schedule_backend/src/posts/services/instagram.service.ts:16-38 | the payload selects the mode the request selects, carries the stored type, caption and media, and sets `published`; `mapMediaType` is the identity |
| Service.Settled | social_posting_schedule_backend/src/posts/services/instagram.service.ts:40-57 | a settled record is never `QUEUED` |
| Service.SettledFields | social_posting_schedule_backend/src/posts/services/instagram.service.ts:40-57 | `PUBLISHED` iff the publish succeeded, with media id, time and detail; `FAILED` iff it threw, with the error's message, keeping the earlier media id and time; no other field changes |
| Service.RevisedFields | social_posting_schedule_backend/src/posts/services/instagram.service.ts:88-94 | repost overwrites caption, media and type; it takes the request's group, or else keeps the stored one; it keeps id and owner |
| Service.FailedRepostKeepsPublication | social_posting_schedule_backend/src/posts/services/instagram.service.ts:101-113 | a failed repost of a published post is `FAILED` with the error, yet keeps its media id and publication time |
| Service.StoreKeepsValid | social_posting_schedule_backend/src/posts/services/instagram.service.ts:40-57 | storing a settled record under its own id keeps the table free of `QUEUED` records |
| Service.InsertThenSettleKeepsValid | social_posting_schedule_backend/src/posts/services/instagram.service.ts:18-57 | inserting a `QUEUED` record and then settling it keeps the table valid |
| Service.UploadWithIncompleteConfig | social_posting_schedule_backend/src/posts/services/instagram.service.ts:29-57 | with an incomplete configuration, upload makes no remote call and stores `FAILED` with the configuration message and no publication |
| Service.InstagramService.constructor | social_posting_schedule_backend/src/posts/services/instagram.service.ts:9-12 | a new service has an empty, valid table |
| Service.InstagramService.Upload | social_posting_schedule_backend/src/posts/services/instagram.service.ts:14-59 | creates a new record under a fresh id, first `QUEUED` and then settled by the publisher's outcome; exactly one insert and one update; each write is stamped with the gateway's state when it was made, so the `QUEUED` insert precedes every call the publisher makes and the update follows them all; the table stays valid |
| Service.InstagramService.Repost | social_posting_schedule_backend/src/posts/services/instagram.service.ts:61-115 | returns none iff the caller owns no record with that id, and then changes nothing and calls nothing; otherwise overwrites that record settled by the publisher's outcome with exactly one update, stamped with the gateway's state after the publisher's calls; never creates a record |
| Service.PublishOnlyAppends | social_posting_schedule_backend/src/posts/platforms/instagram.publisher.ts:23-51 | a publish only appends to the gateway's call log: every call made before it stays, in order |

## Left out

- HTTP, JSON and URL encoding are left out. A call's answer is a `Reply` or `StatusReply` value from the scripted remote. Reading a reason out of an error body (`error.message`, `message`, `JSON.stringify`, the `Unknown error` fallback) is left to the remote's `Rejected(message)`.
- Logging (`Logger`, `console.log`) is left out. The log-and-rethrow in `publish` changes nothing.
- `Promise.all` over the child containers is modelled one container after the other, with the first failure aborting. In the source the other waits keep running concurrently, and their queries interleave. So the model reports the first failure in list order, while the source rejects with the first wait to fail in time. In the source every child also gets its first status query before any wait pauses.
- `setTimeout` is a logged pause of `delayMs`; real time is not modelled. The clock (`new Date()`) is the caller-supplied `now`.
- `SocialPlatformConfig` is not part of this model. Its completeness check is taken to be "access token and user id both non-empty", matching how the missing list is built. `instagramGraphUrl` and the endpoint URLs are not modelled.
- Text.Lower keeps every character outside ASCII unchanged, except U+212A KELVIN SIGN and U+0130, which it lower-cases as JavaScript does. Those two are the only non-ASCII characters whose lower-case form holds an ASCII character, so the video classifier gives the source's answer. Other non-ASCII capitals are not lower-cased.
- Service: the `'Unable to publish'` branch is not modelled. Every exception reaching the service is an `Error`: either the publisher's `BadRequestException`s, or the errors of `fetch` and `response.json()`.
- A rejected `fetch` (a network failure) is not modelled (instagram.publisher.ts:187, 230, 266, 303, 327 and 384). Neither is a response body that is not JSON (lines 199, 242, 278, 315, 341 and 396). Either throws a bare error through `publish`'s rethrow, and the service stores that bare message. A gateway reply cannot express either, so every remote failure in the model carries the `Instagram API error: ` prefix.
- Media.ShareToFeedField: a `shareToFeed` of `null` is sent as `share_to_feed=null` (line 221, through `String(null)`). The model's flag is only absent or a boolean, so this input cannot be expressed.
- Service: `findAll`, `findOne`, DTO validation, `createdAt` and `scheduledAt` are not modelled. Database-generated ids are modelled as a natural-number counter. A database failure is not modelled.
- Service: the `repost` debug `console.log` is left out.
- Service: repost never writes `QUEUED`. It writes the record once, after publishing, which is what the code does (`instagram.service.ts:77-114`).
- Reels takes `mediaUrls[0]` and ignores the rest (`PublishFacts.ReelsIgnoresLaterUrls`).
- PublishFacts.SingleImageCarousel and the other call-sequence lemmas are stated from an empty call log. `RunFacts.PublishRunShift` and the other shift lemmas lift them to any earlier history.
- Runs.PublishStep / Publisher.InstagramPublisher.PublishContainer: a rejected publish is read with the corrected `ReplyResult`, as `Instagram API error: <reason>`. So end-to-end runs, and with them `Service.InstagramService.Upload` and `Repost`, store that text, where the program as written stores `Instagram API error: Unknown error` (see Findings; `Media.PublishReplyAsWritten` models the written reading).
- Captions: `payload.content || ''` is the content itself, since an empty content and `''` are the same string.

## Findings

| source | as written | input that shows it | evidently intended | confidence | as-written member | corrected member |
|---|---|---|---|---|---|---|
| social_posting_schedule_backend/src/posts/platforms/instagram.publisher.ts:332-338 | the error branch of `publishContainer` reads the response body once for a debug log (line 333), then calls `response.json()` a second time; the body is already consumed, so the second read rejects and the fallback `Unknown error` is always reported | a publish rejected with reason `Media ID is not available` throws `Instagram API error: Unknown error` | report the remote's reason, as the three other calls do (lines 192-196) | medium, not executed | Media.PublishReplyAsWritten, Media.PublishReplyLosesReason | Media.ReplyResult (used by `Runs.PublishStep`) |
