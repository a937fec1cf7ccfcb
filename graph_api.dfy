/** The remote Graph API, seen from the publisher: an abstract gateway whose answers
    are scripted, and which keeps a log of every call made to it. */
module GraphApi {

  /** The form fields of a container-creation request. */
  type Params = map<string, string>

  /** The answer to a creation or publish request: the new object's id, or the
      message extracted from the error payload of a non-ok response. */
  datatype Reply = Issued(id: string) | Rejected(message: string)

  /** The answer to a status query: the `status_code` field, a response without
      that field, or the message of a non-ok response. */
  datatype StatusReply = StatusField(code: string) | NoStatusField | StatusRejected(message: string)

  /** One entry of the gateway's call log. A pause between two status queries is
      logged too, so that the log shows how many pauses a wait made. */
  datatype Event =
    | Created(params: Params, reply: Reply)
    | Checked(container: string, status: StatusReply)
    | Published(creation: string, reply: Reply)
    | Slept(ms: nat)

  /** The behaviour of the remote side: the reply to the n-th call of each kind. */
  datatype Remote = Remote(
    onCreate: nat -> Reply,
    onStatus: nat -> StatusReply,
    onPublish: nat -> Reply)

  /** How many calls of each kind have been made so far. */
  datatype Cursor = Cursor(creates: nat, checks: nat, publishes: nat)

  class Gateway {
    const remote: Remote
    var at: Cursor
    ghost var log: seq<Event>

    constructor (remote: Remote)
      ensures this.remote == remote
      ensures at == Cursor(0, 0, 0) && log == []
    {
      this.remote := remote;
      at := Cursor(0, 0, 0);
      log := [];
    }

    /** POST {user}/media: creates a media container. */
    method CreateContainer(params: Params) returns (reply: Reply)
      modifies this
      ensures reply == remote.onCreate(old(at).creates)
      ensures at == old(at).(creates := old(at).creates + 1)
      ensures log == old(log) + [Created(params, reply)]
    {
      reply := remote.onCreate(at.creates);
      at := at.(creates := at.creates + 1);
      log := log + [Created(params, reply)];
    }

    /** GET {container}?fields=status_code. */
    method CheckStatus(container: string) returns (status: StatusReply)
      modifies this
      ensures status == remote.onStatus(old(at).checks)
      ensures at == old(at).(checks := old(at).checks + 1)
      ensures log == old(log) + [Checked(container, status)]
    {
      status := remote.onStatus(at.checks);
      at := at.(checks := at.checks + 1);
      log := log + [Checked(container, status)];
    }

    /** POST {user}/media_publish with `creation_id`. */
    method PublishContainer(creation: string) returns (reply: Reply)
      modifies this
      ensures reply == remote.onPublish(old(at).publishes)
      ensures at == old(at).(publishes := old(at).publishes + 1)
      ensures log == old(log) + [Published(creation, reply)]
    {
      reply := remote.onPublish(at.publishes);
      at := at.(publishes := at.publishes + 1);
      log := log + [Published(creation, reply)];
    }

    /** A timer wait between two status queries; only its occurrence is recorded. */
    method Sleep(ms: nat)
      modifies this
      ensures at == old(at)
      ensures log == old(log) + [Slept(ms)]
    {
      log := log + [Slept(ms)];
    }
  }

  /** The parameter maps of the creation calls in a log, in call order. */
  function Creations(log: seq<Event>): (sent: seq<Params>)
  {
    if log == [] then []
    else (if log[0].Created? then [log[0].params] else []) + Creations(log[1..])
  }

  /** The container ids passed to publish calls in a log, in call order. */
  function Publications(log: seq<Event>): (published: seq<string>)
  {
    if log == [] then []
    else (if log[0].Published? then [log[0].creation] else []) + Publications(log[1..])
  }

  /** The containers queried by the status calls in a log, in call order. */
  function CheckedIds(log: seq<Event>): (queried: seq<string>)
  {
    if log == [] then []
    else (if log[0].Checked? then [log[0].container] else []) + CheckedIds(log[1..])
  }

  /** The ids the remote issued to the creation calls of a log, in call order. */
  function CreatedIds(log: seq<Event>): (issued: seq<string>)
  {
    if log == [] then []
    else (if log[0].Created? && log[0].reply.Issued? then [log[0].reply.id] else []) + CreatedIds(log[1..])
  }

  /** The number of pauses in a log. */
  function Sleeps(log: seq<Event>): (pauses: nat)
  {
    if log == [] then 0 else (if log[0].Slept? then 1 else 0) + Sleeps(log[1..])
  }

  /** Each summary of a log is computed piecewise over a concatenation. */
  lemma {:induction false} CreationsOfConcat(a: seq<Event>, b: seq<Event>)
    ensures Creations(a + b) == Creations(a) + Creations(b)
    decreases |a|
  {
    if a == [] {
      assert a + b == b;
    } else {
      assert (a + b)[0] == a[0] && (a + b)[1..] == a[1..] + b;
      CreationsOfConcat(a[1..], b);
    }
  }

  lemma {:induction false} PublicationsOfConcat(a: seq<Event>, b: seq<Event>)
    ensures Publications(a + b) == Publications(a) + Publications(b)
    decreases |a|
  {
    if a == [] {
      assert a + b == b;
    } else {
      assert (a + b)[0] == a[0] && (a + b)[1..] == a[1..] + b;
      PublicationsOfConcat(a[1..], b);
    }
  }

  lemma {:induction false} CheckedIdsOfConcat(a: seq<Event>, b: seq<Event>)
    ensures CheckedIds(a + b) == CheckedIds(a) + CheckedIds(b)
    decreases |a|
  {
    if a == [] {
      assert a + b == b;
    } else {
      assert (a + b)[0] == a[0] && (a + b)[1..] == a[1..] + b;
      CheckedIdsOfConcat(a[1..], b);
    }
  }

  lemma {:induction false} CreatedIdsOfConcat(a: seq<Event>, b: seq<Event>)
    ensures CreatedIds(a + b) == CreatedIds(a) + CreatedIds(b)
    decreases |a|
  {
    if a == [] {
      assert a + b == b;
    } else {
      assert (a + b)[0] == a[0] && (a + b)[1..] == a[1..] + b;
      CreatedIdsOfConcat(a[1..], b);
    }
  }

  lemma {:induction false} SleepsOfConcat(a: seq<Event>, b: seq<Event>)
    ensures Sleeps(a + b) == Sleeps(a) + Sleeps(b)
    decreases |a|
  {
    if a == [] {
      assert a + b == b;
    } else {
      assert (a + b)[0] == a[0] && (a + b)[1..] == a[1..] + b;
      SleepsOfConcat(a[1..], b);
    }
  }

  /** The summaries of a log after one more call: only the summary of the call's
      own kind changes. */
  lemma CreationsAppend(log: seq<Event>, e: Event)
    ensures Creations(log + [e]) == if e.Created? then Creations(log) + [e.params] else Creations(log)
  {
    CreationsOfConcat(log, [e]);
    assert [e][1..] == [];
    assert Creations(log) + [] == Creations(log);
  }

  lemma PublicationsAppend(log: seq<Event>, e: Event)
    ensures Publications(log + [e]) == if e.Published? then Publications(log) + [e.creation] else Publications(log)
  {
    PublicationsOfConcat(log, [e]);
    assert [e][1..] == [];
    assert Publications(log) + [] == Publications(log);
  }

  lemma CheckedIdsAppend(log: seq<Event>, e: Event)
    ensures CheckedIds(log + [e]) == if e.Checked? then CheckedIds(log) + [e.container] else CheckedIds(log)
  {
    CheckedIdsOfConcat(log, [e]);
    assert [e][1..] == [];
    assert CheckedIds(log) + [] == CheckedIds(log);
  }

  lemma CreatedIdsAppend(log: seq<Event>, e: Event)
    ensures CreatedIds(log + [e]) == if e.Created? && e.reply.Issued? then CreatedIds(log) + [e.reply.id] else CreatedIds(log)
  {
    CreatedIdsOfConcat(log, [e]);
    assert [e][1..] == [];
    assert CreatedIds(log) + [] == CreatedIds(log);
  }

  lemma SleepsAppend(log: seq<Event>, e: Event)
    ensures Sleeps(log + [e]) == Sleeps(log) + (if e.Slept? then 1 else 0)
  {
    SleepsOfConcat(log, [e]);
    assert [e][1..] == [];
  }
}
