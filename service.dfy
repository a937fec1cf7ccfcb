/** The Instagram post service (`InstagramService`): a table of post records that
    `upload` and `repost` write around a call to the publisher. A record is
    written `QUEUED` before publishing and settled `PUBLISHED` or `FAILED` after. */
module Service {
  import opened Wrappers
  import opened GraphApi
  import opened Media
  import opened Runs
  import opened Publisher
  import RunFacts

  /** `InstagramPostStatus`. */
  datatype PostStatus = Queued | Published | Failed

  /** The request body (`CreateInstagramPostDto`); `None` is an absent field. */
  datatype Request = Request(
    content: string,
    mediaUrls: seq<string>,
    mediaType: Option<string>,
    groupId: Option<string>,
    coverUrl: Option<string>,
    shareToFeed: Option<bool>,
    locationId: Option<string>)

  /** A stored post. `publishedAt` is the clock reading supplied by the caller. */
  datatype PostRecord = PostRecord(
    id: nat,
    userId: string,
    groupId: Option<string>,
    content: string,
    mediaUrls: seq<string>,
    mediaType: string,
    status: PostStatus,
    externalId: Option<string>,
    publishedAt: Option<nat>,
    responseMessage: Option<string>)

  /** One write to the post table, stamped with the gateway's state (its log of
      calls and its counters) when the write was made: a write stamped with a state
      comes after every call of that log and before any later call. */
  datatype TableWrite = Insert(record: PostRecord, gateway: State) | Update(record: PostRecord, gateway: State)

  /** `mapMediaType`: the media type is handed on as the same string. */
  function MapMediaType(mediaType: string): (name: string)
  {
    mediaType
  }

  /** The publisher's input built from a request: the request's fields, the media
      type defaulted to `CAROUSEL`, and `published` set. */
  function ToPayload(req: Request): (p: Payload)
  {
    Payload(req.content, Some(req.mediaUrls), Some(MapMediaType(EffectiveMediaType(req.mediaType))),
            Some(true), req.coverUrl, req.shareToFeed, req.locationId)
  }

  /** The record `upload` creates before publishing. */
  function QueuedRecord(id: nat, userId: string, req: Request): (rec: PostRecord)
  {
    PostRecord(id, userId, req.groupId, req.content, req.mediaUrls, EffectiveMediaType(req.mediaType),
               Queued, None, None, None)
  }

  /** The service's defaulting and `mapMediaType` change nothing the publisher
      decides on: the payload selects the mode the request's own type selects, and
      it carries the type, caption and media the record stores. */
  lemma PayloadAgreesWithRecord(id: nat, userId: string, req: Request)
    ensures var p := ToPayload(req);
            var rec := QueuedRecord(id, userId, req);
            && SelectMode(p.mediaType) == SelectMode(req.mediaType)
            && p.mediaType == Some(rec.mediaType)
            && p.content == rec.content && p.mediaUrls == Some(rec.mediaUrls)
            && p.published == Some(true)
  {
  }

  /** The record after the publisher's answer; never `QUEUED`. */
  function Settled(rec: PostRecord, outcome: Result<PublishResult, Failure>, now: nat): (r: PostRecord)
    ensures r.status != Queued
  {
    match outcome
    case Ok(result) =>
      rec.(status := PostStatus.Published, externalId := Some(result.externalId), publishedAt := Some(now),
           responseMessage := Some(result.detail))
    case Err(f) => rec.(status := PostStatus.Failed, responseMessage := Some(Message(f)))
  }

  /** How a record is settled: `PUBLISHED` exactly on success, with the media id,
      the time and the detail; `FAILED` otherwise, with the error's message and the
      media id and time of any earlier success kept; no other field changes. */
  lemma SettledFields(rec: PostRecord, outcome: Result<PublishResult, Failure>, now: nat)
    ensures var r := Settled(rec, outcome, now);
            && (r.status == PostStatus.Published <==> outcome.Ok?)
            && (r.status == PostStatus.Failed <==> outcome.Err?)
            && r.(status := rec.status, externalId := rec.externalId, publishedAt := rec.publishedAt,
                  responseMessage := rec.responseMessage) == rec
            && (outcome.Ok? ==> r.externalId == Some(outcome.value.externalId) && r.publishedAt == Some(now)
                                && r.responseMessage == Some(outcome.value.detail))
            && (outcome.Err? ==> r.externalId == rec.externalId && r.publishedAt == rec.publishedAt
                                 && r.responseMessage == Some(Message(outcome.error)))
  {
  }

  /** The fields `repost` overwrites: the caption, the media, the type defaulted to
      `CAROUSEL`, and the group when the request names one. */
  function Revised(existing: PostRecord, req: Request): (r: PostRecord)
  {
    existing.(content := req.content, mediaUrls := req.mediaUrls, mediaType := EffectiveMediaType(req.mediaType),
              groupId := if req.groupId.Some? then req.groupId else existing.groupId)
  }

  /** What `repost` writes before settling: the request's caption, media and type,
      its group or else the stored one; the owner, the status and the earlier
      result fields stay as stored. */
  lemma RevisedFields(existing: PostRecord, req: Request)
    ensures var r := Revised(existing, req);
            && r.id == existing.id && r.userId == existing.userId
            && r.status == existing.status && r.externalId == existing.externalId
            && r.publishedAt == existing.publishedAt && r.responseMessage == existing.responseMessage
            && r.content == req.content && r.mediaUrls == req.mediaUrls
            && r.mediaType == EffectiveMediaType(req.mediaType)
            && r.groupId == (if req.groupId.Some? then req.groupId else existing.groupId)
  {
  }

  /** A failed repost of a published post records the failure but keeps the media id
      and the time of the earlier publication. */
  lemma FailedRepostKeepsPublication(existing: PostRecord, req: Request, f: Failure, now: nat)
    requires existing.status == PostStatus.Published
    ensures var r := Settled(Revised(existing, req), Err(f), now);
            && r.status == PostStatus.Failed
            && r.externalId == existing.externalId && r.publishedAt == existing.publishedAt
            && r.responseMessage == Some(Message(f))
            && r.content == req.content
  {
    RevisedFields(existing, req);
    SettledFields(Revised(existing, req), Err(f), now);
  }

  /** Every record of a table sits under its own id, below the next id to issue,
      and none is left `QUEUED`. */
  ghost predicate ValidTable(posts: map<nat, PostRecord>, nextId: nat)
  {
    forall id :: id in posts ==> id < nextId && posts[id].id == id && posts[id].status != Queued
  }

  /** Storing a settled record under its own id keeps a table valid. */
  lemma StoreKeepsValid(posts: map<nat, PostRecord>, nextId: nat, newNextId: nat, rec: PostRecord)
    requires ValidTable(posts, nextId) && nextId <= newNextId
    requires rec.id < newNextId && rec.status != Queued
    ensures ValidTable(posts[rec.id := rec], newNextId)
  {
  }

  /** A second write under the same key replaces the first. */
  lemma OverwriteTwice<K, V>(m: map<K, V>, k: K, first: V, second: V)
    ensures m[k := first][k := second] == m[k := second]
  {
  }

  /** Inserting a record under the next id and then settling it keeps a table valid. */
  lemma InsertThenSettleKeepsValid(posts: map<nat, PostRecord>, nextId: nat, queued: PostRecord, rec: PostRecord)
    requires ValidTable(posts, nextId)
    requires rec.id == nextId && rec.status != Queued
    ensures ValidTable(posts[nextId := queued][nextId := rec], nextId + 1)
  {
    OverwriteTwice(posts, nextId, queued, rec);
    StoreKeepsValid(posts, nextId, nextId + 1, rec);
  }

  /** Overwriting a stored record leaves the table's ids as they were. */
  lemma StoreKeepsKeys(posts: map<nat, PostRecord>, rec: PostRecord)
    requires rec.id in posts
    ensures posts[rec.id := rec].Keys == posts.Keys
  {
  }

  /** An upload under an incomplete configuration makes no remote call and leaves
      the record `FAILED` with the configuration message and no publication. */
  lemma UploadWithIncompleteConfig(rm: Remote, s: State, cfg: Config, id: nat, userId: string,
                                   req: Request, now: nat)
    requires !ConfigValid(cfg)
    ensures var run := PublishRun(rm, s, cfg, ToPayload(req));
            var rec := Settled(QueuedRecord(id, userId, req), run.outcome, now);
            && run.state == s
            && rec.status == PostStatus.Failed
            && rec.responseMessage == Some(Message(ConfigIncomplete(MissingConfig(cfg))))
            && rec.externalId == None && rec.publishedAt == None
  {
    var run := PublishRun(rm, s, cfg, ToPayload(req));
    SettledFields(QueuedRecord(id, userId, req), run.outcome, now);
  }

  /** Every gateway call of `publish` is appended after the log it starts from, so a
      write stamped with the state before the publish precedes all of them. */
  lemma PublishOnlyAppends(rm: Remote, s: State, cfg: Config, p: Payload)
    ensures var run := PublishRun(rm, s, cfg, p);
            |s.log| <= |run.state.log| && run.state.log[..|s.log|] == s.log
  {
    RunFacts.PublishRunShift(rm, s, cfg, p);
    var tail := PublishRun(rm, RunFacts.Fresh(s.at), cfg, p).state.log;
    assert (s.log + tail)[..|s.log|] == s.log;
  }

  class InstagramService {
    const publisher: InstagramPublisher
    var posts: map<nat, PostRecord>
    var nextId: nat
    ghost var writes: seq<TableWrite>

    /** The table is valid between calls: no record is left `QUEUED`. */
    ghost predicate Valid()
      reads this
    {
      ValidTable(posts, nextId)
    }

    constructor (publisher: InstagramPublisher)
      ensures Valid()
      ensures this.publisher == publisher && posts == map[] && nextId == 0 && writes == []
    {
      this.publisher := publisher;
      posts := map[];
      nextId := 0;
      writes := [];
    }

    /** `upload`: insert a `QUEUED` record, publish, then settle that same record.
        The insert is stamped with the gateway's state before the publish, so it
        precedes every call the publish makes, and the update with the state after. */
    method Upload(userId: string, req: Request, now: nat) returns (rec: PostRecord)
      requires Valid()
      modifies this, publisher.api
      ensures Valid()
      ensures rec.id == old(nextId) && rec.id !in old(posts) && nextId == old(nextId) + 1
      ensures var run := PublishRun(publisher.api.remote, old(publisher.Current()), publisher.config, ToPayload(req));
              && rec == Settled(QueuedRecord(rec.id, userId, req), run.outcome, now)
              && publisher.Current() == run.state
      ensures posts == old(posts)[rec.id := rec]
      ensures writes == old(writes) + [Insert(QueuedRecord(rec.id, userId, req), old(publisher.Current())),
                                       Update(rec, publisher.Current())]
    {
      ghost var before := posts;
      ghost var gatewayBefore := publisher.Current();
      var id := nextId;
      var queued := QueuedRecord(id, userId, req);
      posts := posts[id := queued];
      nextId := nextId + 1;
      writes := writes + [Insert(queued, gatewayBefore)];
      var outcome := publisher.Publish(ToPayload(req));
      rec := Settled(queued, outcome, now);
      posts := posts[id := rec];
      writes := writes + [Update(rec, publisher.Current())];
      SettledFields(queued, outcome, now);
      InsertThenSettleKeepsValid(before, id, queued, rec);
      OverwriteTwice(before, id, queued, rec);
    }

    /** `repost`: look up the caller's own record; when there is none, change
        nothing; otherwise publish and overwrite that record, never creating one. */
    method Repost(id: nat, userId: string, req: Request, now: nat) returns (r: Option<PostRecord>)
      requires Valid()
      modifies this, publisher.api
      ensures Valid()
      ensures nextId == old(nextId) && posts.Keys == old(posts).Keys
      ensures r.None? <==> !(id in old(posts) && old(posts)[id].userId == userId)
      ensures r.None? ==> posts == old(posts) && writes == old(writes)
                          && publisher.Current() == old(publisher.Current())
      ensures r.Some? ==>
                var run := PublishRun(publisher.api.remote, old(publisher.Current()), publisher.config, ToPayload(req));
                && r.value == Settled(Revised(old(posts)[id], req), run.outcome, now)
                && publisher.Current() == run.state
                && posts == old(posts)[id := r.value]
                && writes == old(writes) + [Update(r.value, publisher.Current())]
    {
      if id !in posts || posts[id].userId != userId {
        return None;
      }
      var existing := posts[id];
      var outcome := publisher.Publish(ToPayload(req));
      var rec := Settled(Revised(existing, req), outcome, now);
      RevisedFields(existing, req);
      SettledFields(Revised(existing, req), outcome, now);
      StoreKeepsValid(posts, nextId, nextId, rec);
      StoreKeepsKeys(posts, rec);
      posts := posts[id := rec];
      writes := writes + [Update(rec, publisher.Current())];
      r := Some(rec);
    }
  }
}
