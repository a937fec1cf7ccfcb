/** Facts about the reference runs: a run does not depend on the log it starts
    from (so its calls can be studied from an empty log), and the readiness wait is
    characterised completely by the statuses the remote reports. */
module RunFacts {
  import opened Wrappers
  import opened GraphApi
  import opened Media
  import opened Runs

  /** A run whose log is preceded by `prefix`. */
  function Shift<T>(prefix: seq<Event>, run: Run<T>): (shifted: Run<T>)
  {
    Run(run.outcome, State(prefix + run.state.log, run.state.at))
  }

  /** Concatenation is associative (stated once, for any element type). */
  lemma AppendAssoc<T>(a: seq<T>, b: seq<T>, c: seq<T>)
    ensures a + b + c == a + (b + c)
  {
  }

  /** The state reached from the counters `c` with an empty log. */
  function Fresh(c: Cursor): (start: State)
  {
    State([], c)
  }

  // ---------------------------------------------------------------- log independence

  /** A single call appends the same event whatever the log before it. */
  lemma StepShift(rm: Remote, prefix: seq<Event>, log: seq<Event>, c: Cursor,
                  params: Params, container: string, creation: string)
    ensures CreateStep(rm, State(prefix + log, c), params) == Shift(prefix, CreateStep(rm, State(log, c), params))
    ensures CheckStep(rm, State(prefix + log, c), container) == Shift(prefix, CheckStep(rm, State(log, c), container))
    ensures PublishStep(rm, State(prefix + log, c), creation) == Shift(prefix, PublishStep(rm, State(log, c), creation))
  {
    assert (prefix + log) + [Created(params, rm.onCreate(c.creates))]
        == prefix + (log + [Created(params, rm.onCreate(c.creates))]);
    assert (prefix + log) + [Checked(container, rm.onStatus(c.checks))]
        == prefix + (log + [Checked(container, rm.onStatus(c.checks))]);
    assert (prefix + log) + [Published(creation, rm.onPublish(c.publishes))]
        == prefix + (log + [Published(creation, rm.onPublish(c.publishes))]);
  }

  lemma {:induction false} PollFromShift(rm: Remote, prefix: seq<Event>, log: seq<Event>, c: Cursor,
                                         container: string, attempt: nat, maxAttempts: nat, delayMs: nat)
    ensures PollFrom(rm, State(prefix + log, c), container, attempt, maxAttempts, delayMs)
         == Shift(prefix, PollFrom(rm, State(log, c), container, attempt, maxAttempts, delayMs))
    decreases maxAttempts - attempt
  {
    if attempt < maxAttempts {
      StepShift(rm, prefix, log, c, map[], container, "");
      var check := CheckStep(rm, State(log, c), container);
      if check.outcome.Ok? && Readiness(check.outcome.value) == Pending {
        var paused := if attempt < maxAttempts - 1 then SleepStep(check.state, delayMs) else check.state;
        assert prefix + check.state.log + [Slept(delayMs)] == prefix + (check.state.log + [Slept(delayMs)]);
        PollFromShift(rm, prefix, paused.log, paused.at, container, attempt + 1, maxAttempts, delayMs);
      }
    }
  }

  lemma {:induction false} PollEachShift(rm: Remote, prefix: seq<Event>, log: seq<Event>, c: Cursor,
                                         containers: seq<string>, from: nat)
    ensures PollEach(rm, State(prefix + log, c), containers, from)
         == Shift(prefix, PollEach(rm, State(log, c), containers, from))
    decreases |containers| - from
  {
    if from < |containers| {
      PollFromShift(rm, prefix, log, c, containers[from], 0, MaxAttempts, DelayMs);
      var first := PollFrom(rm, State(log, c), containers[from], 0, MaxAttempts, DelayMs);
      if first.outcome.Ok? {
        PollEachShift(rm, prefix, first.state.log, first.state.at, containers, from + 1);
      }
    }
  }

  lemma {:induction false} CreateItemsShift(rm: Remote, prefix: seq<Event>, log: seq<Event>, c: Cursor,
                                            cfg: Config, urls: seq<string>, from: nat, ids: seq<string>,
                                            isItem: bool, caption: Option<string>, locationId: Option<string>)
    requires from <= |urls|
    ensures CreateItems(rm, State(prefix + log, c), cfg, urls, from, ids, isItem, caption, locationId)
         == Shift(prefix, CreateItems(rm, State(log, c), cfg, urls, from, ids, isItem, caption, locationId))
    decreases |urls| - from
  {
    if from < |urls| {
      var params := ItemParams(cfg, urls[from], isItem, caption, locationId);
      StepShift(rm, prefix, log, c, params, "", "");
      var first := CreateStep(rm, State(log, c), params);
      if first.outcome.Ok? {
        CreateItemsShift(rm, prefix, first.state.log, first.state.at, cfg, urls, from + 1,
                         ids + [first.outcome.value], isItem, caption, locationId);
      }
    }
  }

  /** A wait followed by a publish call, as the three publishing paths end. */
  lemma WaitThenPublishShift(rm: Remote, prefix: seq<Event>, polled: Run<()>, id: string, detail: string)
    requires polled.outcome.Ok?
    ensures Finish(PublishStep(rm, Shift(prefix, polled).state, id), detail)
         == Shift(prefix, Finish(PublishStep(rm, polled.state, id), detail))
  {
    StepShift(rm, prefix, polled.state.log, polled.state.at, map[], "", id);
  }

  lemma CarouselRunShift(rm: Remote, prefix: seq<Event>, log: seq<Event>, c: Cursor, cfg: Config, p: Payload)
    ensures CarouselRun(rm, State(prefix + log, c), cfg, p) == Shift(prefix, CarouselRun(rm, State(log, c), cfg, p))
  {
    if CarouselError(p.mediaUrls).None? {
      var urls := p.mediaUrls.value;
      var isItem := |urls| > 1;
      var caption := if isItem then None else Some(p.content);
      var locationId := if isItem then None else p.locationId;
      CreateItemsShift(rm, prefix, log, c, cfg, urls, 0, [], isItem, caption, locationId);
      var created := CreateItems(rm, State(log, c), cfg, urls, 0, [], isItem, caption, locationId);
      if created.outcome.Ok? {
        var ids := created.outcome.value;
        PollEachShift(rm, prefix, created.state.log, created.state.at, ids, 0);
        var polled := PollEach(rm, created.state, ids, 0);
        if polled.outcome.Ok? {
          if !isItem {
            WaitThenPublishShift(rm, prefix, polled, ids[0], SingleImageDetail);
          } else {
            var params := CarouselParams(cfg, ids, p.content, p.locationId);
            StepShift(rm, prefix, polled.state.log, polled.state.at, params, "", "");
            var parent := CreateStep(rm, polled.state, params);
            if parent.outcome.Ok? {
              WaitThenPublishShift(rm, prefix, Run(Ok(()), parent.state), parent.outcome.value, CarouselDetail);
            }
          }
        }
      }
    }
  }

  lemma ReelsRunShift(rm: Remote, prefix: seq<Event>, log: seq<Event>, c: Cursor, cfg: Config, p: Payload)
    ensures ReelsRun(rm, State(prefix + log, c), cfg, p) == Shift(prefix, ReelsRun(rm, State(log, c), cfg, p))
  {
    if HasMedia(p.mediaUrls) {
      var params := ReelsParams(cfg, p.mediaUrls.value[0], p);
      StepShift(rm, prefix, log, c, params, "", "");
      var created := CreateStep(rm, State(log, c), params);
      if created.outcome.Ok? {
        var id := created.outcome.value;
        PollFromShift(rm, prefix, created.state.log, created.state.at, id, 0, MaxAttempts, DelayMs);
        var polled := PollFrom(rm, created.state, id, 0, MaxAttempts, DelayMs);
        if polled.outcome.Ok? {
          WaitThenPublishShift(rm, prefix, polled, id, ReelsDetail);
        }
      }
    }
  }

  lemma StoriesRunShift(rm: Remote, prefix: seq<Event>, log: seq<Event>, c: Cursor, cfg: Config, p: Payload)
    ensures StoriesRun(rm, State(prefix + log, c), cfg, p) == Shift(prefix, StoriesRun(rm, State(log, c), cfg, p))
  {
    if HasMedia(p.mediaUrls) {
      var url := p.mediaUrls.value[0];
      StepShift(rm, prefix, log, c, StoriesParams(cfg, url), "", "");
      var created := CreateStep(rm, State(log, c), StoriesParams(cfg, url));
      if created.outcome.Ok? {
        var id := created.outcome.value;
        var polled := if IsVideoUrl(url) then PollFrom(rm, created.state, id, 0, MaxAttempts, DelayMs)
                      else Run(Ok(()), created.state);
        if IsVideoUrl(url) {
          PollFromShift(rm, prefix, created.state.log, created.state.at, id, 0, MaxAttempts, DelayMs);
        }
        if polled.outcome.Ok? {
          WaitThenPublishShift(rm, prefix, polled, id, StoriesDetail);
        }
      }
    }
  }

  /** What `publish` does to the gateway does not depend on the calls logged before
      it: a run from any log is the run from an empty log, appended to that log. */
  lemma PublishRunShift(rm: Remote, s: State, cfg: Config, p: Payload)
    ensures PublishRun(rm, s, cfg, p) == Shift(s.log, PublishRun(rm, Fresh(s.at), cfg, p))
  {
    assert s.log + [] == s.log;
    if ConfigValid(cfg) && SelectMode(p.mediaType).Ok? {
      match SelectMode(p.mediaType).value
      case Carousel => CarouselRunShift(rm, s.log, [], s.at, cfg, p);
      case Reels => ReelsRunShift(rm, s.log, [], s.at, cfg, p);
      case Stories => StoriesRunShift(rm, s.log, [], s.at, cfg, p);
    }
  }

  // ---------------------------------------------------------------- the readiness wait

  /** The k-th status query after the counters `c`, as the publisher reads it. */
  function StatusAt(rm: Remote, c: Cursor, k: nat): (status: Result<string, Failure>)
  {
    StatusResult(rm.onStatus(c.checks + k))
  }

  /** The k-th query after `c` reports a status that keeps the wait going. */
  predicate PendingAt(rm: Remote, c: Cursor, k: nat)
  {
    StatusAt(rm, c, k).Ok? && Readiness(StatusAt(rm, c, k).value) == Pending
  }

  /** The first `n` queries after `c` all keep the wait going. */
  predicate PendingFor(rm: Remote, c: Cursor, n: nat)
  {
    forall k :: 0 <= k < n ==> PendingAt(rm, c, k)
  }

  /** What the wait returns when it stops at the k-th query after `c`: a failed
      query's error, success on `FINISHED`, or the failed-status error. */
  function StopOutcome(rm: Remote, c: Cursor, k: nat, container: string): (outcome: Result<(), Failure>)
  {
    match StatusAt(rm, c, k)
    case Err(m) => Err(m)
    case Ok(status) => if Readiness(status) == Ready then Ok(()) else Err(ContainerFailed(container, status))
  }

  /** Seen from the next query on, the script is the same script shifted by one. */
  lemma PendingNext(rm: Remote, c: Cursor, n: nat)
    requires PendingFor(rm, c, n + 1)
    ensures PendingFor(rm, c.(checks := c.checks + 1), n)
  {
    var next := c.(checks := c.checks + 1);
    forall k | 0 <= k < n
      ensures PendingAt(rm, next, k)
    {
      assert PendingAt(rm, c, k + 1);
    }
  }

  /** The readiness wait makes status queries only: the creations, the issued ids,
      the publications and the creation and publish counters are left as they were. */
  lemma {:induction false} PollOnlyQueries(rm: Remote, s: State, container: string, attempt: nat,
                                           maxAttempts: nat, delayMs: nat)
    ensures var run := PollFrom(rm, s, container, attempt, maxAttempts, delayMs);
            && Creations(run.state.log) == Creations(s.log)
            && CreatedIds(run.state.log) == CreatedIds(s.log)
            && Publications(run.state.log) == Publications(s.log)
            && run.state.at.creates == s.at.creates && run.state.at.publishes == s.at.publishes
    decreases maxAttempts - attempt
  {
    if attempt < maxAttempts {
      var check := CheckStep(rm, s, container);
      CreationsAppend(s.log, Checked(container, rm.onStatus(s.at.checks)));
      CreatedIdsAppend(s.log, Checked(container, rm.onStatus(s.at.checks)));
      PublicationsAppend(s.log, Checked(container, rm.onStatus(s.at.checks)));
      if check.outcome.Ok? && Readiness(check.outcome.value) == Pending {
        var paused := if attempt < maxAttempts - 1 then SleepStep(check.state, delayMs) else check.state;
        CreationsAppend(check.state.log, Slept(delayMs));
        CreatedIdsAppend(check.state.log, Slept(delayMs));
        PublicationsAppend(check.state.log, Slept(delayMs));
        PollOnlyQueries(rm, paused, container, attempt + 1, maxAttempts, delayMs);
      }
    }
  }

  /** Every status query of the wait is about its own container. */
  lemma {:induction false} PollQueriesAbout(rm: Remote, s: State, container: string, attempt: nat,
                                            maxAttempts: nat, delayMs: nat)
    ensures var run := PollFrom(rm, s, container, attempt, maxAttempts, delayMs);
            forall x :: x in CheckedIds(run.state.log) ==> x in CheckedIds(s.log) || x == container
    decreases maxAttempts - attempt
  {
    if attempt < maxAttempts {
      var check := CheckStep(rm, s, container);
      CheckedIdsAppend(s.log, Checked(container, rm.onStatus(s.at.checks)));
      if check.outcome.Ok? && Readiness(check.outcome.value) == Pending {
        var paused := if attempt < maxAttempts - 1 then SleepStep(check.state, delayMs) else check.state;
        CheckedIdsAppend(check.state.log, Slept(delayMs));
        PollQueriesAbout(rm, paused, container, attempt + 1, maxAttempts, delayMs);
        var run := PollFrom(rm, paused, container, attempt + 1, maxAttempts, delayMs);
        forall x | x in CheckedIds(run.state.log)
          ensures x in CheckedIds(s.log) || x == container
        {
          assert x in CheckedIds(paused.log) || x == container;
        }
      }
    }
  }

  /** The wait queries its container whenever an attempt remains, and keeps the
      queries logged before it. */
  lemma {:induction false} PollQueriesContainer(rm: Remote, s: State, container: string, attempt: nat,
                                                maxAttempts: nat, delayMs: nat)
    ensures var run := PollFrom(rm, s, container, attempt, maxAttempts, delayMs);
            && (forall x :: x in CheckedIds(s.log) ==> x in CheckedIds(run.state.log))
            && (attempt < maxAttempts ==> container in CheckedIds(run.state.log))
    decreases maxAttempts - attempt
  {
    if attempt < maxAttempts {
      var check := CheckStep(rm, s, container);
      CheckedIdsAppend(s.log, Checked(container, rm.onStatus(s.at.checks)));
      if check.outcome.Ok? && Readiness(check.outcome.value) == Pending {
        var paused := if attempt < maxAttempts - 1 then SleepStep(check.state, delayMs) else check.state;
        CheckedIdsAppend(check.state.log, Slept(delayMs));
        PollQueriesContainer(rm, paused, container, attempt + 1, maxAttempts, delayMs);
      }
    }
  }

  /** At most one query per remaining attempt, at least one if any attempt remains,
      one pause fewer than queries, and the query counter advanced by the queries. */
  lemma {:induction false} PollCounts(rm: Remote, s: State, container: string, attempt: nat,
                                      maxAttempts: nat, delayMs: nat)
    requires attempt <= maxAttempts
    ensures var run := PollFrom(rm, s, container, attempt, maxAttempts, delayMs);
            var before := |CheckedIds(s.log)|;
            var after := |CheckedIds(run.state.log)|;
            && before <= after <= before + maxAttempts - attempt
            && (attempt < maxAttempts ==> before < after && Sleeps(s.log) + after == Sleeps(run.state.log) + before + 1)
            && run.state.at.checks + before == s.at.checks + after
    decreases maxAttempts - attempt
  {
    if attempt < maxAttempts {
      var check := CheckStep(rm, s, container);
      CheckedIdsAppend(s.log, Checked(container, rm.onStatus(s.at.checks)));
      SleepsAppend(s.log, Checked(container, rm.onStatus(s.at.checks)));
      if check.outcome.Ok? && Readiness(check.outcome.value) == Pending {
        var paused := if attempt < maxAttempts - 1 then SleepStep(check.state, delayMs) else check.state;
        CheckedIdsAppend(check.state.log, Slept(delayMs));
        SleepsAppend(check.state.log, Slept(delayMs));
        PollCounts(rm, paused, container, attempt + 1, maxAttempts, delayMs);
      }
    }
  }

  /** The wait stops at the first query that fails or reports `FINISHED`, `ERROR`
      or `EXPIRED`, with that query's verdict. */
  lemma {:induction false} PollStops(rm: Remote, s: State, container: string, attempt: nat,
                                     maxAttempts: nat, delayMs: nat, k: nat)
    requires attempt + k < maxAttempts
    requires PendingFor(rm, s.at, k) && !PendingAt(rm, s.at, k)
    ensures PollFrom(rm, s, container, attempt, maxAttempts, delayMs).outcome == StopOutcome(rm, s.at, k, container)
    decreases k
  {
    var check := CheckStep(rm, s, container);
    if k == 0 {
      assert check.outcome == StatusAt(rm, s.at, 0);
    } else {
      assert PendingAt(rm, s.at, 0);
      var paused := SleepStep(check.state, delayMs);
      PendingNext(rm, s.at, k - 1);
      assert StatusAt(rm, paused.at, k - 1) == StatusAt(rm, s.at, k);
      assert StopOutcome(rm, paused.at, k - 1, container) == StopOutcome(rm, s.at, k, container);
      PollStops(rm, paused, container, attempt + 1, maxAttempts, delayMs, k - 1);
    }
  }

  /** A wait that stops at the k-th query has made k + 1 queries and a pause between
      two of them. */
  lemma {:induction false} PollStopsCounts(rm: Remote, s: State, container: string, attempt: nat,
                                           maxAttempts: nat, delayMs: nat, k: nat)
    requires attempt + k < maxAttempts
    requires PendingFor(rm, s.at, k) && !PendingAt(rm, s.at, k)
    ensures var run := PollFrom(rm, s, container, attempt, maxAttempts, delayMs);
            && |CheckedIds(run.state.log)| == |CheckedIds(s.log)| + k + 1
            && Sleeps(run.state.log) == Sleeps(s.log) + k
    decreases k
  {
    var check := CheckStep(rm, s, container);
    CheckedIdsAppend(s.log, Checked(container, rm.onStatus(s.at.checks)));
    SleepsAppend(s.log, Checked(container, rm.onStatus(s.at.checks)));
    if k > 0 {
      assert PendingAt(rm, s.at, 0);
      assert check.outcome == StatusAt(rm, s.at, 0);
      var paused := SleepStep(check.state, delayMs);
      assert PollFrom(rm, s, container, attempt, maxAttempts, delayMs)
          == PollFrom(rm, paused, container, attempt + 1, maxAttempts, delayMs);
      CheckedIdsAppend(check.state.log, Slept(delayMs));
      SleepsAppend(check.state.log, Slept(delayMs));
      PendingNext(rm, s.at, k - 1);
      PollStopsCounts(rm, paused, container, attempt + 1, maxAttempts, delayMs, k - 1);
    } else {
      assert check.outcome == StatusAt(rm, s.at, 0);
      assert PollFrom(rm, s, container, attempt, maxAttempts, delayMs).state == check.state;
    }
  }

  /** When every remaining attempt reports a non-terminal status, the wait gives up
      with its own error. */
  lemma {:induction false} PollExhausts(rm: Remote, s: State, container: string, attempt: nat,
                                        maxAttempts: nat, delayMs: nat)
    requires attempt <= maxAttempts && PendingFor(rm, s.at, maxAttempts - attempt)
    ensures PollFrom(rm, s, container, attempt, maxAttempts, delayMs).outcome
         == Err(ContainerNotReady(container, maxAttempts))
    decreases maxAttempts - attempt
  {
    if attempt < maxAttempts {
      assert PendingAt(rm, s.at, 0);
      var check := CheckStep(rm, s, container);
      var paused := if attempt < maxAttempts - 1 then SleepStep(check.state, delayMs) else check.state;
      PendingNext(rm, s.at, maxAttempts - attempt - 1);
      PollExhausts(rm, paused, container, attempt + 1, maxAttempts, delayMs);
    }
  }

  /** A wait that gives up has made one query per attempt and a pause between every
      two of them, so one pause fewer than queries. */
  lemma {:induction false} PollExhaustsCounts(rm: Remote, s: State, container: string, attempt: nat,
                                              maxAttempts: nat, delayMs: nat)
    requires attempt <= maxAttempts && PendingFor(rm, s.at, maxAttempts - attempt)
    ensures var run := PollFrom(rm, s, container, attempt, maxAttempts, delayMs);
            && |CheckedIds(run.state.log)| == |CheckedIds(s.log)| + maxAttempts - attempt
            && (attempt < maxAttempts ==> Sleeps(run.state.log) + 1 == Sleeps(s.log) + maxAttempts - attempt)
    decreases maxAttempts - attempt
  {
    if attempt < maxAttempts {
      assert PendingAt(rm, s.at, 0);
      var check := CheckStep(rm, s, container);
      CheckedIdsAppend(s.log, Checked(container, rm.onStatus(s.at.checks)));
      SleepsAppend(s.log, Checked(container, rm.onStatus(s.at.checks)));
      var paused := if attempt < maxAttempts - 1 then SleepStep(check.state, delayMs) else check.state;
      CheckedIdsAppend(check.state.log, Slept(delayMs));
      SleepsAppend(check.state.log, Slept(delayMs));
      assert PollFrom(rm, s, container, attempt, maxAttempts, delayMs)
          == PollFrom(rm, paused, container, attempt + 1, maxAttempts, delayMs);
      PendingNext(rm, s.at, maxAttempts - attempt - 1);
      PollExhaustsCounts(rm, paused, container, attempt + 1, maxAttempts, delayMs);
    }
  }

  /** Every script falls under one of the two lemmas above: either the first `n`
      queries are all non-terminal, or there is a first query that ends the wait. */
  lemma {:induction false} FirstStop(rm: Remote, c: Cursor, n: nat)
    ensures PendingFor(rm, c, n) || exists k :: 0 <= k < n && PendingFor(rm, c, k) && !PendingAt(rm, c, k)
  {
    if n > 0 {
      FirstStop(rm, c, n - 1);
      if PendingFor(rm, c, n - 1) && !PendingAt(rm, c, n - 1) {
        assert 0 <= n - 1 < n && PendingFor(rm, c, n - 1) && !PendingAt(rm, c, n - 1);
      }
    }
  }

  // ---------------------------------------------------------------- waiting for every child

  /** Waiting for a list of containers makes status queries only. */
  lemma {:induction false} PollEachOnlyQueries(rm: Remote, s: State, containers: seq<string>, from: nat)
    ensures var run := PollEach(rm, s, containers, from);
            && Creations(run.state.log) == Creations(s.log)
            && Publications(run.state.log) == Publications(s.log)
            && CreatedIds(run.state.log) == CreatedIds(s.log)
            && run.state.at.creates == s.at.creates && run.state.at.publishes == s.at.publishes
    decreases |containers| - from
  {
    if from < |containers| {
      var first := PollFrom(rm, s, containers[from], 0, MaxAttempts, DelayMs);
      PollOnlyQueries(rm, s, containers[from], 0, MaxAttempts, DelayMs);
      if first.outcome.Ok? {
        PollEachOnlyQueries(rm, first.state, containers, from + 1);
      }
    }
  }

  /** When waiting for a list of containers succeeds, every container of the list
      from `from` on has been queried; the queries logged before are kept. */
  lemma {:induction false} PollEachChecksAll(rm: Remote, s: State, containers: seq<string>, from: nat)
    ensures var run := PollEach(rm, s, containers, from);
            && (forall x :: x in CheckedIds(s.log) ==> x in CheckedIds(run.state.log))
            && (run.outcome.Ok? ==>
                  forall j :: from <= j < |containers| ==> containers[j] in CheckedIds(run.state.log))
    decreases |containers| - from
  {
    if from < |containers| {
      var first := PollFrom(rm, s, containers[from], 0, MaxAttempts, DelayMs);
      PollQueriesContainer(rm, s, containers[from], 0, MaxAttempts, DelayMs);
      if first.outcome.Ok? {
        PollEachChecksAll(rm, first.state, containers, from + 1);
        var run := PollEach(rm, first.state, containers, from + 1);
        if run.outcome.Ok? {
          forall j | from <= j < |containers|
            ensures containers[j] in CheckedIds(run.state.log)
          {
            if j == from {
              assert containers[j] in CheckedIds(first.state.log);
            }
          }
        }
      }
    }
  }

  /** The log holds a status query about `container` that reported `FINISHED`. */
  ghost predicate ReportedFinished(log: seq<Event>, container: string)
  {
    exists i :: 0 <= i < |log| && log[i].Checked? && log[i].container == container
                && StatusResult(log[i].status) == Ok("FINISHED")
  }

  /** Every status query of the log answered, with `FINISHED` or a status that keeps
      a wait going: none failed and none reported `ERROR` or `EXPIRED`. */
  ghost predicate NoFailedQuery(log: seq<Event>)
  {
    forall i :: 0 <= i < |log| && log[i].Checked? ==>
      StatusResult(log[i].status).Ok? && Readiness(StatusResult(log[i].status).value) != Failed
  }

  /** A report stays in the log as calls are appended. */
  lemma ReportedFinishedGrows(log: seq<Event>, e: Event)
    ensures forall x :: ReportedFinished(log, x) ==> ReportedFinished(log + [e], x)
  {
    forall x | ReportedFinished(log, x)
      ensures ReportedFinished(log + [e], x)
    {
      var i :| 0 <= i < |log| && log[i].Checked? && log[i].container == x
               && StatusResult(log[i].status) == Ok("FINISHED");
      assert (log + [e])[i] == log[i];
    }
  }

  /** Appending a call keeps `NoFailedQuery` exactly when the call is not a failed query. */
  lemma NoFailedQueryAppend(log: seq<Event>, e: Event)
    requires NoFailedQuery(log)
    requires e.Checked? ==> StatusResult(e.status).Ok? && Readiness(StatusResult(e.status).value) != Failed
    ensures NoFailedQuery(log + [e])
  {
    forall i | 0 <= i < |log + [e]| && (log + [e])[i].Checked?
      ensures StatusResult((log + [e])[i].status).Ok? && Readiness(StatusResult((log + [e])[i].status).value) != Failed
    {
      if i < |log| {
        assert (log + [e])[i] == log[i];
      }
    }
  }

  /** A log without status queries has no failed query. */
  lemma {:induction false} NoQueriesNoFailedQuery(log: seq<Event>)
    requires CheckedIds(log) == []
    ensures forall i :: 0 <= i < |log| ==> !log[i].Checked?
    ensures NoFailedQuery(log)
    decreases |log|
  {
    if log != [] {
      assert log == [log[0]] + log[1..];
      CheckedIdsOfConcat([log[0]], log[1..]);
      assert CheckedIds([log[0]]) == [] && CheckedIds(log[1..]) == [];
      NoQueriesNoFailedQuery(log[1..]);
      assert forall i :: 1 <= i < |log| ==> log[i] == log[1..][i - 1];
    }
  }

  /** A wait that succeeds has had its container report `FINISHED`; reports already
      logged are kept. */
  lemma {:induction false} PollReportsFinished(rm: Remote, s: State, container: string, attempt: nat,
                                               maxAttempts: nat, delayMs: nat)
    ensures var run := PollFrom(rm, s, container, attempt, maxAttempts, delayMs);
            && (forall x :: ReportedFinished(s.log, x) ==> ReportedFinished(run.state.log, x))
            && (run.outcome.Ok? ==> ReportedFinished(run.state.log, container))
    decreases maxAttempts - attempt
  {
    if attempt < maxAttempts {
      var e := Checked(container, rm.onStatus(s.at.checks));
      var check := CheckStep(rm, s, container);
      ReportedFinishedGrows(s.log, e);
      if check.outcome.Ok? {
        var status := check.outcome.value;
        if Readiness(status) == Ready {
          assert check.state.log[|s.log|] == e;
        } else if Readiness(status) == Pending {
          var paused := if attempt < maxAttempts - 1 then SleepStep(check.state, delayMs) else check.state;
          ReportedFinishedGrows(check.state.log, Slept(delayMs));
          PollReportsFinished(rm, paused, container, attempt + 1, maxAttempts, delayMs);
        }
      }
    }
  }

  /** A wait that succeeds has seen no failed query. */
  lemma {:induction false} PollNoFailedQuery(rm: Remote, s: State, container: string, attempt: nat,
                                             maxAttempts: nat, delayMs: nat)
    requires NoFailedQuery(s.log)
    ensures var run := PollFrom(rm, s, container, attempt, maxAttempts, delayMs);
            run.outcome.Ok? ==> NoFailedQuery(run.state.log)
    decreases maxAttempts - attempt
  {
    if attempt < maxAttempts {
      var e := Checked(container, rm.onStatus(s.at.checks));
      var check := CheckStep(rm, s, container);
      if check.outcome.Ok? && Readiness(check.outcome.value) != Failed {
        NoFailedQueryAppend(s.log, e);
        if Readiness(check.outcome.value) == Pending {
          var paused := if attempt < maxAttempts - 1 then SleepStep(check.state, delayMs) else check.state;
          NoFailedQueryAppend(check.state.log, Slept(delayMs));
          PollNoFailedQuery(rm, paused, container, attempt + 1, maxAttempts, delayMs);
        }
      }
    }
  }

  /** When waiting for a list of containers succeeds, every container from `from` on
      has reported `FINISHED`; reports already logged are kept. */
  lemma {:induction false} PollEachReportsFinished(rm: Remote, s: State, containers: seq<string>, from: nat)
    ensures var run := PollEach(rm, s, containers, from);
            && (forall x :: ReportedFinished(s.log, x) ==> ReportedFinished(run.state.log, x))
            && (run.outcome.Ok? ==>
                  forall j :: from <= j < |containers| ==> ReportedFinished(run.state.log, containers[j]))
    decreases |containers| - from
  {
    if from < |containers| {
      var first := PollFrom(rm, s, containers[from], 0, MaxAttempts, DelayMs);
      PollReportsFinished(rm, s, containers[from], 0, MaxAttempts, DelayMs);
      if first.outcome.Ok? {
        PollEachReportsFinished(rm, first.state, containers, from + 1);
      }
    }
  }

  /** When waiting for a list of containers succeeds, no query failed. */
  lemma {:induction false} PollEachNoFailedQuery(rm: Remote, s: State, containers: seq<string>, from: nat)
    requires NoFailedQuery(s.log)
    ensures var run := PollEach(rm, s, containers, from);
            run.outcome.Ok? ==> NoFailedQuery(run.state.log)
    decreases |containers| - from
  {
    if from < |containers| {
      var first := PollFrom(rm, s, containers[from], 0, MaxAttempts, DelayMs);
      PollNoFailedQuery(rm, s, containers[from], 0, MaxAttempts, DelayMs);
      if first.outcome.Ok? {
        PollEachNoFailedQuery(rm, first.state, containers, from + 1);
      }
    }
  }

  // ---------------------------------------------------------------- creating the children

  /** Creating the image containers makes creation calls only. */
  lemma {:induction false} CreateItemsOnlyCreates(rm: Remote, s: State, cfg: Config, urls: seq<string>, from: nat,
                                                  ids: seq<string>, isItem: bool, caption: Option<string>,
                                                  locationId: Option<string>)
    requires from <= |urls|
    ensures var run := CreateItems(rm, s, cfg, urls, from, ids, isItem, caption, locationId);
            && Publications(run.state.log) == Publications(s.log)
            && CheckedIds(run.state.log) == CheckedIds(s.log)
            && Sleeps(run.state.log) == Sleeps(s.log)
            && run.state.at.checks == s.at.checks && run.state.at.publishes == s.at.publishes
    decreases |urls| - from
  {
    if from < |urls| {
      var params := ItemParams(cfg, urls[from], isItem, caption, locationId);
      var first := CreateStep(rm, s, params);
      PublicationsAppend(s.log, Created(params, rm.onCreate(s.at.creates)));
      CheckedIdsAppend(s.log, Created(params, rm.onCreate(s.at.creates)));
      SleepsAppend(s.log, Created(params, rm.onCreate(s.at.creates)));
      if first.outcome.Ok? {
        CreateItemsOnlyCreates(rm, first.state, cfg, urls, from + 1, ids + [first.outcome.value],
                               isItem, caption, locationId);
      }
    }
  }

  /** A failure stops the creation calls: never more calls than URLs, exactly one
      per URL when every call succeeds, and the creation counter counts the calls. */
  lemma {:induction false} CreateItemsCount(rm: Remote, s: State, cfg: Config, urls: seq<string>, from: nat,
                                            ids: seq<string>, isItem: bool, caption: Option<string>,
                                            locationId: Option<string>)
    requires from <= |urls|
    ensures var run := CreateItems(rm, s, cfg, urls, from, ids, isItem, caption, locationId);
            && |Creations(run.state.log)| <= |Creations(s.log)| + |urls| - from
            && (run.outcome.Ok? ==> |Creations(run.state.log)| == |Creations(s.log)| + |urls| - from)
            && run.state.at.creates + |Creations(s.log)| == s.at.creates + |Creations(run.state.log)|
    decreases |urls| - from
  {
    if from < |urls| {
      var params := ItemParams(cfg, urls[from], isItem, caption, locationId);
      var first := CreateStep(rm, s, params);
      CreationsAppend(s.log, Created(params, rm.onCreate(s.at.creates)));
      if first.outcome.Ok? {
        CreateItemsCount(rm, first.state, cfg, urls, from + 1, ids + [first.outcome.value],
                         isItem, caption, locationId);
      }
    }
  }

  /** The parameter list from index `from` on starts with the parameters for `urls[from]`. */
  lemma ItemParamsListFrom(cfg: Config, urls: seq<string>, from: nat, isItem: bool, caption: Option<string>,
                           locationId: Option<string>)
    requires from < |urls|
    ensures ItemParamsList(cfg, urls[from..], isItem, caption, locationId)
         == [ItemParams(cfg, urls[from], isItem, caption, locationId)]
            + ItemParamsList(cfg, urls[from + 1..], isItem, caption, locationId)
  {
    assert urls[from..][1..] == urls[from + 1..];
  }

  /** A successful creation makes one call per URL from `from` on, in list order,
      each with the parameters of an image container. */
  lemma {:induction false} CreateItemsCreations(rm: Remote, s: State, cfg: Config, urls: seq<string>, from: nat,
                                                ids: seq<string>, isItem: bool, caption: Option<string>,
                                                locationId: Option<string>)
    requires from <= |urls|
    ensures var run := CreateItems(rm, s, cfg, urls, from, ids, isItem, caption, locationId);
            run.outcome.Ok? ==>
              Creations(run.state.log) == Creations(s.log) + ItemParamsList(cfg, urls[from..], isItem, caption, locationId)
    decreases |urls| - from
  {
    if from < |urls| {
      var params := ItemParams(cfg, urls[from], isItem, caption, locationId);
      var first := CreateStep(rm, s, params);
      CreationsAppend(s.log, Created(params, rm.onCreate(s.at.creates)));
      if first.outcome.Ok? {
        CreateItemsCreations(rm, first.state, cfg, urls, from + 1, ids + [first.outcome.value],
                             isItem, caption, locationId);
        ItemParamsListFrom(cfg, urls, from, isItem, caption, locationId);
        AppendAssoc(Creations(s.log), [params], ItemParamsList(cfg, urls[from + 1..], isItem, caption, locationId));
      }
    } else {
      assert urls[from..] == [];
      assert Creations(s.log) + [] == Creations(s.log);
    }
  }

  /** The ids a successful creation returns are the ids the remote issued to the
      creation calls of the log, in call order, when the ids collected so far are
      those of the log it starts from (from an empty log: exactly the issued ids). */
  lemma {:induction false} CreateItemsIds(rm: Remote, s: State, cfg: Config, urls: seq<string>, from: nat,
                                          ids: seq<string>, isItem: bool, caption: Option<string>,
                                          locationId: Option<string>)
    requires from <= |urls|
    requires ids == CreatedIds(s.log)
    ensures var run := CreateItems(rm, s, cfg, urls, from, ids, isItem, caption, locationId);
            run.outcome.Ok? ==> run.outcome.value == CreatedIds(run.state.log)
    decreases |urls| - from
  {
    if from < |urls| {
      var params := ItemParams(cfg, urls[from], isItem, caption, locationId);
      var first := CreateStep(rm, s, params);
      CreatedIdsAppend(s.log, Created(params, rm.onCreate(s.at.creates)));
      if first.outcome.Ok? {
        CreateItemsIds(rm, first.state, cfg, urls, from + 1, ids + [first.outcome.value],
                       isItem, caption, locationId);
      }
    }
  }

  /** A failed creation of the image containers ends with the rejected call: no call
      follows the first failure. */
  lemma {:induction false} CreateItemsStopsAtFailure(rm: Remote, s: State, cfg: Config, urls: seq<string>,
                                                     from: nat, ids: seq<string>, isItem: bool,
                                                     caption: Option<string>, locationId: Option<string>)
    requires from <= |urls|
    ensures var run := CreateItems(rm, s, cfg, urls, from, ids, isItem, caption, locationId);
            run.outcome.Err? ==>
              |run.state.log| > 0 && var last := run.state.log[|run.state.log| - 1];
              last.Created? && last.reply.Rejected? && run.outcome.error == ApiFailure(last.reply.message)
    decreases |urls| - from
  {
    if from < |urls| {
      var params := ItemParams(cfg, urls[from], isItem, caption, locationId);
      var first := CreateStep(rm, s, params);
      if first.outcome.Ok? {
        CreateItemsStopsAtFailure(rm, first.state, cfg, urls, from + 1, ids + [first.outcome.value],
                                  isItem, caption, locationId);
      } else {
        assert first.state.log[|first.state.log| - 1] == Created(params, rm.onCreate(s.at.creates));
      }
    }
  }
}
