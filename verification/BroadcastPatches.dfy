/** Laws of broadcast patches: how they compose, what they leave alone, and what becomes of the fetched payload. */
module BroadcastPatches {
  import opened Sql
  import opened Broadcasts

  /** Key by key, the later patch wins; feeds compose as a stored feed and a request would. */
  function Compose(p: Patch, q: Patch): Patch {
    Patch(q.name, Or(q.list, p.list), Or(q.segments, p.segments), Or(q.excludeUnsubscribed, p.excludeUnsubscribed),
          Or(q.schedule, p.schedule), Or(q.tests, p.tests), Or(q.utm, p.utm), Or(q.metadata, p.metadata),
          MergeFeed(p.feed, q.feed))
  }

  function ApartFromFeed(b: Settings): Settings { b.(feed := None, updatedAt := 0) }

  // ---- a monoid acting on broadcasts -----------------------------------------------------------

  /** Two patches in a row are their combination, apart from the feed and the time stamp. */
  lemma PatchesCompose(b: Settings, p: Patch, q: Patch, now: int, later: int)
    ensures ApartFromFeed(Apply(Apply(b, p, now), q, later)) == ApartFromFeed(Apply(b, Compose(p, q), later))
  {
  }

  /** Whether the second patch undoes, for the global feed, a switch the first one makes. */
  predicate Flips(f: Feed, p: Option<Feed>, q: Option<Feed>) {
    && p.Some? && q.Some? && p.value.global.Some? && q.value.global.Some?
    && p.value.global.value.enabled != Live(f)
    && q.value.global.value.enabled == Live(f)
  }

  predicate HasPayload(f: Feed) { f.payload.Some? || f.fetchedAt.Some? }

  /** For the feed they are their combination too, unless a payload is there and the two flip the switch back and forth. */
  lemma FeedsComposeExactlyWhen(f: Option<Feed>, p: Option<Feed>, q: Option<Feed>)
    ensures MergeFeed(MergeFeed(f, p), q) == MergeFeed(f, MergeFeed(p, q))
       <==> !(f.Some? && HasPayload(f.value) && Flips(f.value, p, q))
  {
  }

  /** Off and on again on a live feed drops the payload, which no single patch does. */
  lemma NoPatchFlipsBack(f: Feed, p: Option<Feed>, q: Option<Feed>, r: Option<Feed>)
    requires Live(f) && HasPayload(f) && Flips(f, p, q)
    ensures MergeFeed(MergeFeed(Some(f), p), q) != MergeFeed(Some(f), r)
  {
    var end := MergeFeed(MergeFeed(Some(f), p), q).value;
    assert Live(end) && !HasPayload(end);
  }

  /** What is stored under a key: what the body sent, or what was there. */
  function Stored<T>(sent: Wire<T>, was: T): T {
    match sent
    case Sent(v) => v
    case Absent => was
    case Null => was
  }

  function StoredOption<T>(sent: Wire<T>, was: Option<T>): Option<T> {
    match sent
    case Sent(v) => Some(v)
    case Absent => was
    case Null => was
  }

  /** Key by key: what is sent is what is stored, and what is omitted or null leaves its field; the name is always stored. */
  lemma EveryKeyDecides(b: Settings, body: Body, now: int)
    ensures var b', audience := Apply(b, PatchOf(body), now), Stored(body.audience, AudienceBody(Null, Null, Null));
      && b'.name == Stored(body.name, "") && b'.updatedAt == now
      && b'.audience.list == Stored(audience.list, b.audience.list)
      && b'.audience.segments == Stored(audience.segments, b.audience.segments)
      && b'.audience.excludeUnsubscribed == Stored(audience.excludeUnsubscribed, b.audience.excludeUnsubscribed)
      && b'.schedule == Stored(body.schedule, b.schedule) && b'.tests == Stored(body.tests, b.tests)
      && b'.utm == StoredOption(body.utm, b.utm) && b'.metadata == StoredOption(body.metadata, b.metadata)
  {
  }

  /** Of the feed: each of the two settings that is sent is stored, one that is not stays. */
  lemma SentFeedIsStored(b: Settings, body: Body, now: int)
    ensures var was, b' := b.feed, Apply(b, PatchOf(body), now);
      && (body.feed in {Absent, Null} ==> b'.feed == was)
      && (body.feed.Sent? ==>
            var sent := body.feed.value;
            && b'.feed != None
            && b'.feed.value.global == (if sent.global == None && was != None then was.value.global else sent.global)
            && b'.feed.value.recipient == (if sent.recipient == None && was != None then was.value.recipient else sent.recipient))
  {
  }

  /** A request for an editable broadcast whose name is omitted, null or empty is refused for that. */
  lemma UnnamedIsRefused(env: Env, b: Settings, body: Body, now: int)
    requires body.workspaceId == Sent(b.workspaceId) && body.id == Sent(b.id) && b.status in {Draft, Scheduled, Paused}
    requires b.workspaceId != "" && body.name in {Absent, Null, Sent("")}
    ensures UpdateError(env, b, RequestOf(body), now) == Some(NameRequired)
  {
  }

  // ---- accepted updates ------------------------------------------------------------------------

  /** An accepted update keeps identity, status and everything else it may not touch, and leaves a good broadcast. */
  lemma AcceptedIsGood(env: Env, b: Settings, r: Request, now: int)
    requires UpdateError(env, b, r, now).None?
    ensures var b' := Apply(b, r.patch, now);
      Good(env, b') && b'.id == b.id && b'.workspaceId == b.workspaceId && b'.status == b.status && b'.rest == b.rest
  {
    ValidateAcceptsExactlyWhen(env, Apply(b, r.patch, now));
  }

  /** Sending an accepted patch again is accepted and changes nothing but the time stamp, the feed included. */
  lemma AcceptedTwiceIsOnce(env: Env, b: Settings, r: Request, now: int, later: int)
    requires UpdateError(env, b, r, now).None?
    ensures UpdateError(env, Apply(b, r.patch, now), r, later).None?
    ensures Apply(Apply(b, r.patch, now), r.patch, later) == Apply(b, r.patch, now).(updatedAt := later)
  {
    var once := Apply(b, r.patch, now);
    assert Apply(once, r.patch, later) == once.(updatedAt := later);
  }

  // ---- the payload over runs -------------------------------------------------------------------

  datatype Timed = Timed(request: Request, now: int)

  /** A refused request is not stored. */
  function Receive(env: Env, b: Settings, t: Timed): Settings {
    if UpdateError(env, b, t.request, t.now).None? then Apply(b, t.request.patch, t.now) else b
  }

  function ReceiveAll(env: Env, b: Settings, ts: seq<Timed>): Settings
    decreases |ts|
  {
    if ts == [] then b else ReceiveAll(env, Receive(env, b, ts[0]), ts[1..])
  }

  /** The request is accepted and switches a live global feed off. */
  predicate TurnsOff(env: Env, b: Settings, t: Timed) {
    && UpdateError(env, b, t.request, t.now).None?
    && b.feed.Some? && Live(b.feed.value) && t.request.patch.feed.Some? && Disables(t.request.patch.feed.value)
  }

  predicate EverTurnsOff(env: Env, b: Settings, ts: seq<Timed>)
    decreases |ts|
  {
    ts != [] && (TurnsOff(env, b, ts[0]) || EverTurnsOff(env, Receive(env, b, ts[0]), ts[1..]))
  }

  /**
   * Over any sequence of requests, accepted or not, the payload is what it was until one turns a live feed off,
   * and nothing afterwards: no patch brings it back.
   */
  lemma {:induction false} PayloadOverRuns(env: Env, b: Settings, ts: seq<Timed>)
    requires b.feed.Some?
    ensures var b' := ReceiveAll(env, b, ts);
      && b'.feed.Some?
      && (if EverTurnsOff(env, b, ts) then !HasPayload(b'.feed.value)
          else b'.feed.value.payload == b.feed.value.payload && b'.feed.value.fetchedAt == b.feed.value.fetchedAt)
    decreases |ts|
  {
    if ts != [] {
      PayloadOverRuns(env, Receive(env, b, ts[0]), ts[1..]);
    }
  }

  /** So a payload that was there is still there exactly when no request turned a live feed off. */
  lemma PayloadKeptExactlyWhen(env: Env, b: Settings, ts: seq<Timed>)
    requires b.feed.Some? && b.feed.value.payload.Some?
    ensures ReceiveAll(env, b, ts).feed.Some?
    ensures ReceiveAll(env, b, ts).feed.value.payload == b.feed.value.payload <==> !EverTurnsOff(env, b, ts)
  {
    PayloadOverRuns(env, b, ts);
  }

  /** And every stored broadcast stays good, whatever is sent. */
  lemma {:induction false} StaysGood(env: Env, b: Settings, ts: seq<Timed>)
    requires Good(env, b)
    ensures var b' := ReceiveAll(env, b, ts); Good(env, b') && b'.status == b.status && b'.id == b.id
    decreases |ts|
  {
    if ts != [] {
      if UpdateError(env, b, ts[0].request, ts[0].now).None? {
        AcceptedIsGood(env, b, ts[0].request, ts[0].now);
      }
      StaysGood(env, Receive(env, b, ts[0]), ts[1..]);
    }
  }
}
