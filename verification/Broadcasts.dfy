/** Broadcast settings, their validation, and the patch that `UpdateBroadcastRequest` applies to them. */
module Broadcasts {
  import opened Sql

  // ---- the broadcast ---------------------------------------------------------------------------

  datatype Header = Header(name: string, value: string)

  datatype FeedSettings = FeedSettings(enabled: bool, url: string, headers: seq<Header>)

  /** `payload` is the fetched response of the global feed. */
  datatype Feed = Feed(
    global: Option<FeedSettings>, payload: Option<map<string, string>>, fetchedAt: Option<int>,
    recipient: Option<FeedSettings>)

  datatype Variation = Variation(name: string, templateId: string)

  datatype Metric = NoMetric | OpenRate | ClickRate | OtherMetric(text: string)

  datatype TestSettings = TestSettings(
    enabled: bool, samplePercentage: int, autoSendWinner: bool, winnerMetric: Metric, durationHours: int,
    variations: seq<Variation>)

  datatype Schedule = Schedule(isScheduled: bool, date: string, time: string, timezone: string, recipientTimezone: bool)

  datatype Audience = Audience(list: string, segments: seq<string>, excludeUnsubscribed: bool)

  datatype Utm = Utm(source: string, medium: string, campaign: string, term: string, content: string)

  type Metadata = map<string, string>

  /** What no update touches. */
  datatype Rest = Rest(channelType: string, winningTemplate: Option<string>, enqueued: int, createdAt: int, startedAt: Option<int>)

  datatype Status =
    | Draft | Scheduled | Processing | Paused | Processed | Cancelled | Failed | Testing | TestCompleted
    | WinnerSelected | OtherStatus(text: string)

  datatype Settings = Settings(
    id: string, workspaceId: string, status: Status, rest: Rest,
    name: string, audience: Audience, schedule: Schedule, tests: TestSettings,
    utm: Option<Utm>, metadata: Option<Metadata>, feed: Option<Feed>, updatedAt: int)

  // ---- Broadcast.Validate ----------------------------------------------------------------------

  datatype Error =
    | WorkspaceChanged | IdChanged | NotEditable(status: Status)
    | WorkspaceRequired | NameRequired | NameTooLong | BadStatus
    | BadPercentage | TooFewVariations | TooManyVariations | DurationRequired | DurationTooLong
    | MetricRequired | BadMetric | TemplateRequired(number: nat)
    | ListRequired | DateRequired | BadDate | BadTime | BadTimezone
    | UrlRequired | BadUrl | HeaderNameRequired | HeaderValueRequired

  /** What the code asks of the URL, and of the time zone database. */
  datatype Env = Env(safeUrl: string -> bool, https: string -> bool, knownZone: string -> bool)

  function HeadersError(hs: seq<Header>): Option<Error> {
    if hs == [] then None
    else if hs[0].name == "" then Some(HeaderNameRequired)
    else if hs[0].value == "" then Some(HeaderValueRequired)
    else HeadersError(hs[1..])
  }

  function FeedSettingsError(env: Env, f: Option<FeedSettings>, onlyHttps: bool): Option<Error> {
    if f.None? || !f.value.enabled then None
    else if f.value.url == "" then Some(UrlRequired)
    else if !env.safeUrl(f.value.url) || (onlyHttps && !env.https(f.value.url)) then Some(BadUrl)
    else HeadersError(f.value.headers)
  }

  function FeedError(env: Env, f: Feed): Option<Error> {
    var global := FeedSettingsError(env, f.global, false);
    if global.Some? then global else FeedSettingsError(env, f.recipient, true)
  }

  function VariationsError(vs: seq<Variation>, done: nat): Option<Error> {
    if vs == [] then None
    else if vs[0].templateId == "" then Some(TemplateRequired(done + 1))
    else VariationsError(vs[1..], done + 1)
  }

  function TestsError(t: TestSettings): Option<Error> {
    if !t.enabled then None
    else if t.samplePercentage <= 0 || t.samplePercentage > 100 then Some(BadPercentage)
    else if |t.variations| < 2 then Some(TooFewVariations)
    else if |t.variations| > 8 then Some(TooManyVariations)
    else if t.autoSendWinner && t.durationHours <= 0 then Some(DurationRequired)
    else if t.autoSendWinner && t.durationHours > 168 then Some(DurationTooLong)
    else if t.autoSendWinner && t.winnerMetric.NoMetric? then Some(MetricRequired)
    else if t.autoSendWinner && t.winnerMetric.OtherMetric? then Some(BadMetric)
    else VariationsError(t.variations, 0)
  }

  function ScheduleError(env: Env, s: Schedule): Option<Error> {
    if !s.isScheduled then None
    else if s.date == "" || s.time == "" then Some(DateRequired)
    else if |s.date| != 10 || s.date[4] != '-' || s.date[7] != '-' then Some(BadDate)
    else if |s.time| != 5 || s.time[2] != ':' then Some(BadTime)
    else if s.timezone != "" && !env.knownZone(s.timezone) then Some(BadTimezone)
    else None
  }

  /** The first complaint of `Broadcast.Validate`. */
  function SettingsError(env: Env, b: Settings): Option<Error> {
    if b.workspaceId == "" then Some(WorkspaceRequired)
    else if b.name == "" then Some(NameRequired)
    else if |b.name| > 255 then Some(NameTooLong)
    else if b.status.OtherStatus? then Some(BadStatus)
    else if TestsError(b.tests).Some? then TestsError(b.tests)
    else if b.audience.list == "" then Some(ListRequired)
    else if ScheduleError(env, b.schedule).Some? then ScheduleError(env, b.schedule)
    else if b.feed.Some? then FeedError(env, b.feed.value)
    else None
  }

  predicate GoodHeaders(hs: seq<Header>) { forall h :: h in hs ==> h.name != "" && h.value != "" }

  predicate GoodFeed(env: Env, f: Option<FeedSettings>, onlyHttps: bool) {
    f.Some? && f.value.enabled ==>
      f.value.url != "" && env.safeUrl(f.value.url) && (onlyHttps ==> env.https(f.value.url)) && GoodHeaders(f.value.headers)
  }

  predicate GoodTests(t: TestSettings) {
    t.enabled ==>
      && 1 <= t.samplePercentage <= 100 && 2 <= |t.variations| <= 8
      && (t.autoSendWinner ==> 1 <= t.durationHours <= 168 && t.winnerMetric in {OpenRate, ClickRate})
      && forall v :: v in t.variations ==> v.templateId != ""
  }

  predicate GoodSchedule(env: Env, s: Schedule) {
    s.isScheduled ==>
      && |s.date| == 10 && s.date[4] == '-' && s.date[7] == '-' && |s.time| == 5 && s.time[2] == ':'
      && (s.timezone != "" ==> env.knownZone(s.timezone))
  }

  /** What a broadcast that can be stored looks like. */
  predicate Good(env: Env, b: Settings) {
    && b.workspaceId != "" && 0 < |b.name| <= 255 && !b.status.OtherStatus? && b.audience.list != ""
    && GoodTests(b.tests) && GoodSchedule(env, b.schedule)
    && (b.feed.Some? ==> GoodFeed(env, b.feed.value.global, false) && GoodFeed(env, b.feed.value.recipient, true))
  }

  lemma {:induction false} HeadersComplaint(hs: seq<Header>)
    ensures HeadersError(hs).None? <==> GoodHeaders(hs)
  {
    if hs != [] {
      HeadersComplaint(hs[1..]);
      assert forall h :: h in hs <==> h == hs[0] || h in hs[1..];
    }
  }

  /** The complaint names the first variation without a template. */
  lemma {:induction false} VariationsComplaint(vs: seq<Variation>, done: nat)
    ensures VariationsError(vs, done).None? <==> forall v :: v in vs ==> v.templateId != ""
    ensures VariationsError(vs, done).Some? ==>
      exists i :: 0 <= i < |vs| && VariationsError(vs, done).value == TemplateRequired(done + i + 1)
        && vs[i].templateId == "" && forall j :: 0 <= j < i ==> vs[j].templateId != ""
  {
    if vs != [] {
      assert forall v :: v in vs <==> v == vs[0] || v in vs[1..];
      if vs[0].templateId != "" {
        VariationsComplaint(vs[1..], done + 1);
        if VariationsError(vs, done).Some? {
          var i :| 0 <= i < |vs[1..]| && VariationsError(vs[1..], done + 1).value == TemplateRequired(done + 1 + i + 1)
            && vs[1..][i].templateId == "" && forall j :: 0 <= j < i ==> vs[1..][j].templateId != "";
          assert forall j :: 0 < j < i + 1 ==> vs[j] == vs[1..][j - 1];
          assert vs[i + 1].templateId == "";
        }
      }
    }
  }

  /** `Validate` complains exactly about the broadcasts that are not good. */
  lemma ValidateAcceptsExactlyWhen(env: Env, b: Settings)
    ensures SettingsError(env, b).None? <==> Good(env, b)
  {
    TestsComplaint(b.tests);
    if b.feed.Some? {
      FeedComplaint(env, b.feed.value.global, false);
      FeedComplaint(env, b.feed.value.recipient, true);
    }
  }

  lemma TestsComplaint(t: TestSettings)
    ensures TestsError(t).None? <==> GoodTests(t)
  {
    VariationsComplaint(t.variations, 0);
  }

  lemma FeedComplaint(env: Env, f: Option<FeedSettings>, onlyHttps: bool)
    ensures FeedSettingsError(env, f, onlyHttps).None? <==> GoodFeed(env, f, onlyHttps)
  {
    if f.Some? {
      HeadersComplaint(f.value.headers);
    }
  }

  /** The settings break the rule the error is about. */
  predicate Explains(env: Env, b: Settings, error: Error) {
    match error
    case WorkspaceRequired => b.workspaceId == ""
    case NameRequired => b.name == ""
    case NameTooLong => |b.name| > 255
    case BadStatus => b.status.OtherStatus?
    case BadPercentage => b.tests.enabled && !(1 <= b.tests.samplePercentage <= 100)
    case TooFewVariations => b.tests.enabled && |b.tests.variations| < 2
    case TooManyVariations => b.tests.enabled && |b.tests.variations| > 8
    case DurationRequired => b.tests.enabled && b.tests.autoSendWinner && b.tests.durationHours <= 0
    case DurationTooLong => b.tests.enabled && b.tests.autoSendWinner && b.tests.durationHours > 168
    case MetricRequired => b.tests.enabled && b.tests.autoSendWinner && b.tests.winnerMetric == NoMetric
    case BadMetric => b.tests.enabled && b.tests.autoSendWinner && b.tests.winnerMetric.OtherMetric?
    case TemplateRequired(n) => b.tests.enabled && 1 <= n <= |b.tests.variations| && b.tests.variations[n - 1].templateId == ""
    case ListRequired => b.audience.list == ""
    case DateRequired => b.schedule.isScheduled && (b.schedule.date == "" || b.schedule.time == "")
    case BadDate => b.schedule.isScheduled && !(|b.schedule.date| == 10 && b.schedule.date[4] == '-' && b.schedule.date[7] == '-')
    case BadTime => b.schedule.isScheduled && !(|b.schedule.time| == 5 && b.schedule.time[2] == ':')
    case BadTimezone => b.schedule.isScheduled && b.schedule.timezone != "" && !env.knownZone(b.schedule.timezone)
    case UrlRequired => FeedBreaks(env, b.feed, error)
    case BadUrl => FeedBreaks(env, b.feed, error)
    case HeaderNameRequired => FeedBreaks(env, b.feed, error)
    case HeaderValueRequired => FeedBreaks(env, b.feed, error)
    case _ => false
  }

  predicate FeedBreaks(env: Env, feed: Option<Feed>, error: Error) {
    feed.Some? && (Breaks(env, feed.value.global, false, error) || Breaks(env, feed.value.recipient, true, error))
  }

  /** The feed is switched on, and breaks the rule. */
  predicate Breaks(env: Env, f: Option<FeedSettings>, onlyHttps: bool, error: Error) {
    && f.Some? && f.value.enabled
    && match error
       case UrlRequired => f.value.url == ""
       case BadUrl => !env.safeUrl(f.value.url) || (onlyHttps && !env.https(f.value.url))
       case HeaderNameRequired => exists h :: h in f.value.headers && h.name == ""
       case HeaderValueRequired => exists h :: h in f.value.headers && h.value == ""
       case _ => false
  }

  lemma {:induction false} HeadersErrorIsTrue(hs: seq<Header>)
    ensures HeadersError(hs) in {None, Some(HeaderNameRequired), Some(HeaderValueRequired)}
    ensures HeadersError(hs) == Some(HeaderNameRequired) ==> exists h :: h in hs && h.name == ""
    ensures HeadersError(hs) == Some(HeaderValueRequired) ==> exists h :: h in hs && h.value == ""
  {
    if hs != [] {
      HeadersErrorIsTrue(hs[1..]);
      assert hs[0] in hs && forall h :: h in hs[1..] ==> h in hs;
    }
  }

  lemma TestsErrorIsTrue(env: Env, b: Settings)
    ensures TestsError(b.tests).Some? ==> Explains(env, b, TestsError(b.tests).value)
  {
    VariationsComplaint(b.tests.variations, 0);
  }

  lemma ScheduleErrorIsTrue(env: Env, b: Settings)
    ensures ScheduleError(env, b.schedule).Some? ==> Explains(env, b, ScheduleError(env, b.schedule).value)
  {
  }

  lemma FeedErrorIsTrue(env: Env, f: Option<FeedSettings>, onlyHttps: bool)
    ensures FeedSettingsError(env, f, onlyHttps).Some? ==>
      var error := FeedSettingsError(env, f, onlyHttps).value;
      error in {UrlRequired, BadUrl, HeaderNameRequired, HeaderValueRequired} && Breaks(env, f, onlyHttps, error)
  {
    if f.Some? {
      HeadersErrorIsTrue(f.value.headers);
    }
  }

  /** What `Validate` complains about is so. */
  lemma ComplaintIsTrue(env: Env, b: Settings)
    ensures SettingsError(env, b).Some? ==> Explains(env, b, SettingsError(env, b).value)
  {
    TestsErrorIsTrue(env, b);
    ScheduleErrorIsTrue(env, b);
    if b.feed.Some? {
      FeedErrorIsTrue(env, b.feed.value.global, false);
      FeedErrorIsTrue(env, b.feed.value.recipient, true);
    }
  }

  // ---- the patch -------------------------------------------------------------------------------

  /** What the body carries under a key. */
  datatype Wire<T> = Absent | Null | Sent(value: T)

  /** `jsonKeyOmitted`: a null counts as left out. */
  predicate Omitted<T>(w: Wire<T>) { !w.Sent? }

  datatype AudienceBody = AudienceBody(list: Wire<string>, segments: Wire<seq<string>>, excludeUnsubscribed: Wire<bool>)

  datatype Body = Body(
    workspaceId: Wire<string>, id: Wire<string>, name: Wire<string>, audience: Wire<AudienceBody>,
    schedule: Wire<Schedule>, tests: Wire<TestSettings>, utm: Wire<Utm>, metadata: Wire<Metadata>, feed: Wire<Feed>)

  /** The part of an accepted request that changes something; the name always does. */
  datatype Patch = Patch(
    name: string, list: Option<string>, segments: Option<seq<string>>, excludeUnsubscribed: Option<bool>,
    schedule: Option<Schedule>, tests: Option<TestSettings>, utm: Option<Utm>, metadata: Option<Metadata>,
    feed: Option<Feed>)

  function Key<T>(w: Wire<T>): Option<T> { if w.Sent? then Some(w.value) else None }

  function AudienceOf(body: Body): AudienceBody {
    if body.audience.Sent? then body.audience.value else AudienceBody(Absent, Absent, Absent)
  }

  function PatchOf(body: Body): Patch {
    var audience := AudienceOf(body);
    Patch(Set(Key(body.name), ""),
          Key(audience.list), Key(audience.segments), Key(audience.excludeUnsubscribed),
          Key(body.schedule), Key(body.tests), Key(body.utm), Key(body.metadata), Key(body.feed))
  }

  function Or<T>(later: Option<T>, earlier: Option<T>): Option<T> { if later.Some? then later else earlier }

  function Set<T>(change: Option<T>, stored: T): T { if change.Some? then change.value else stored }

  predicate Live(f: Feed) { f.global.Some? && f.global.value.enabled }

  predicate Disables(p: Feed) { p.global.Some? && !p.global.value.enabled }

  /** The stored feed after a request's feed: the payload stays, except when a live feed is switched off. */
  function MergeFeed(stored: Option<Feed>, sent: Option<Feed>): Option<Feed> {
    if sent.None? then stored
    else if stored.None? then sent
    else
      var f, p := stored.value, sent.value;
      var drops := Live(f) && Disables(p);
      Some(Feed(Or(p.global, f.global), if drops then None else f.payload, if drops then None else f.fetchedAt,
                Or(p.recipient, f.recipient)))
  }

  function Apply(b: Settings, p: Patch, now: int): Settings {
    b.(name := p.name,
       audience := Audience(Set(p.list, b.audience.list), Set(p.segments, b.audience.segments),
                            Set(p.excludeUnsubscribed, b.audience.excludeUnsubscribed)),
       schedule := Set(p.schedule, b.schedule), tests := Set(p.tests, b.tests),
       utm := Or(p.utm, b.utm), metadata := Or(p.metadata, b.metadata),
       feed := MergeFeed(b.feed, p.feed), updatedAt := now)
  }

  predicate Editable(status: Status) { status.Draft? || status.Scheduled? || status.Paused? }

  /** A request: whom it is for, and its patch. */
  datatype Request = Request(workspaceId: string, id: string, patch: Patch)

  function RequestOf(body: Body): Request {
    Request(Set(Key(body.workspaceId), ""), Set(Key(body.id), ""), PatchOf(body))
  }

  /** The error `Validate` returns, if any. */
  function UpdateError(env: Env, b: Settings, r: Request, now: int): Option<Error> {
    if r.workspaceId != b.workspaceId then Some(WorkspaceChanged)
    else if r.id != b.id then Some(IdChanged)
    else if !Editable(b.status) then Some(NotEditable(b.status))
    else SettingsError(env, Apply(b, r.patch, now))
  }

  predicate Refused(b: Settings, r: Request) {
    r.workspaceId != b.workspaceId || r.id != b.id || !Editable(b.status)
  }

  // ---- the objects -----------------------------------------------------------------------------

  class Broadcast {
    var id: string
    var workspaceId: string
    var status: Status
    var rest: Rest
    var name: string
    var audience: Audience
    var schedule: Schedule
    var tests: TestSettings
    var utm: Option<Utm>
    var metadata: Option<Metadata>
    var feed: Option<Feed>
    var updatedAt: int

    function State(): Settings
      reads this
    {
      Settings(id, workspaceId, status, rest, name, audience, schedule, tests, utm, metadata, feed, updatedAt)
    }

    constructor (s: Settings)
      ensures State() == s
    {
      id, workspaceId, status, rest := s.id, s.workspaceId, s.status, s.rest;
      name, audience, schedule, tests := s.name, s.audience, s.schedule, s.tests;
      utm, metadata, feed, updatedAt := s.utm, s.metadata, s.feed, s.updatedAt;
    }
  }

  const NO_AUDIENCE := Audience("", [], false)
  const NO_SCHEDULE := Schedule(false, "", "", "", false)
  const NO_TESTS := TestSettings(false, 0, false, NoMetric, 0, [])

  /** The decoded request, with the flags that tell an omitted key from a zero value. */
  class UpdateRequest {
    var workspaceId: string
    var id: string
    var name: string
    var audience: Audience
    var schedule: Schedule
    var tests: TestSettings
    var utm: Option<Utm>
    var metadata: Option<Metadata>
    var feed: Option<Feed>
    var scheduleOmitted: bool
    var testsOmitted: bool
    var listOmitted: bool
    var segmentsOmitted: bool
    var excludeOmitted: bool

    function Value(): Request
      reads this
    {
      Request(workspaceId, id, Patch(name,
        if listOmitted then None else Some(audience.list),
        if segmentsOmitted then None else Some(audience.segments),
        if excludeOmitted then None else Some(audience.excludeUnsubscribed),
        if scheduleOmitted then None else Some(schedule),
        if testsOmitted then None else Some(tests),
        utm, metadata, feed))
    }

    /** The zero request: a request assembled in code applies every field. */
    constructor ()
      ensures Value() == Request("", "", Patch("", Some(""), Some([]), Some(false), Some(NO_SCHEDULE), Some(NO_TESTS), None, None, None))
    {
      workspaceId, id, name := "", "", "";
      audience, schedule, tests := NO_AUDIENCE, NO_SCHEDULE, NO_TESTS;
      utm, metadata, feed := None, None, None;
      scheduleOmitted, testsOmitted, listOmitted, segmentsOmitted, excludeOmitted := false, false, false, false, false;
    }

    /** `UnmarshalJSON` on a zero request: a null or an absent key leaves the zero value and is recorded. */
    constructor Unmarshal(body: Body)
      ensures Value() == RequestOf(body)
    {
      workspaceId, id, name := Set(Key(body.workspaceId), ""), Set(Key(body.id), ""), Set(Key(body.name), "");
      schedule, tests := Set(Key(body.schedule), NO_SCHEDULE), Set(Key(body.tests), NO_TESTS);
      utm, metadata, feed := Key(body.utm), Key(body.metadata), Key(body.feed);
      scheduleOmitted, testsOmitted := Omitted(body.schedule), Omitted(body.tests);
      var keys := if Omitted(body.audience) then AudienceBody(Absent, Absent, Absent) else body.audience.value;
      audience := Audience(Set(Key(keys.list), NO_AUDIENCE.list), Set(Key(keys.segments), NO_AUDIENCE.segments),
                           Set(Key(keys.excludeUnsubscribed), NO_AUDIENCE.excludeUnsubscribed));
      listOmitted, segmentsOmitted := Omitted(keys.list), Omitted(keys.segments);
      excludeOmitted := Omitted(keys.excludeUnsubscribed);
    }

    /** The audience, one key at a time. */
    method PatchAudience(existing: Broadcast)
      modifies existing`audience
      ensures existing.audience == Audience(Set(Value().patch.list, old(existing.audience.list)),
                                            Set(Value().patch.segments, old(existing.audience.segments)),
                                            Set(Value().patch.excludeUnsubscribed, old(existing.audience.excludeUnsubscribed)))
    {
      if !listOmitted {
        existing.audience := existing.audience.(list := audience.list);
      }
      if !segmentsOmitted {
        existing.audience := existing.audience.(segments := audience.segments);
      }
      if !excludeOmitted {
        existing.audience := existing.audience.(excludeUnsubscribed := audience.excludeUnsubscribed);
      }
    }

    /** The feed settings, keeping the fetched payload unless a live feed is switched off. */
    method PatchFeed(existing: Broadcast)
      modifies existing`feed
      ensures existing.feed == MergeFeed(old(existing.feed), feed)
    {
      if feed.Some? {
        if existing.feed.None? {
          existing.feed := feed;
        } else {
          var f := existing.feed.value;
          var payload, fetchedAt := f.payload, f.fetchedAt;
          var wasEnabled := f.global.Some? && f.global.value.enabled;
          if wasEnabled && feed.value.global.Some? && !feed.value.global.value.enabled {
            payload, fetchedAt := None, None;
          }
          if feed.value.global.Some? {
            f := f.(global := feed.value.global);
          }
          if feed.value.recipient.Some? {
            f := f.(recipient := feed.value.recipient);
          }
          existing.feed := Some(f.(payload := payload, fetchedAt := fetchedAt));
        }
      }
    }

    method PatchOptional(existing: Broadcast)
      modifies existing`schedule, existing`tests, existing`utm, existing`metadata
      ensures existing.schedule == Set(Value().patch.schedule, old(existing.schedule))
      ensures existing.tests == Set(Value().patch.tests, old(existing.tests))
      ensures existing.utm == Or(utm, old(existing.utm))
      ensures existing.metadata == Or(metadata, old(existing.metadata))
    {
      if !scheduleOmitted {
        existing.schedule := schedule;
      }
      if !testsOmitted {
        existing.tests := tests;
      }
      if utm.Some? {
        existing.utm := utm;
      }
      if metadata.Some? {
        existing.metadata := metadata;
      }
    }

    method PatchInPlace(existing: Broadcast, now: int)
      modifies existing
      ensures existing.State() == Apply(old(existing.State()), old(Value().patch), now)
    {
      existing.name := name;
      PatchAudience(existing);
      PatchOptional(existing);
      PatchFeed(existing);
      existing.updatedAt := now;
    }

    /** Patches `existing` in place, then validates it: a late refusal leaves the object patched. */
    method Validate(env: Env, existing: Broadcast, now: int) returns (error: Option<Error>)
      modifies existing
      ensures error == UpdateError(env, old(existing.State()), old(Value()), now)
      ensures existing.State() ==
        if Refused(old(existing.State()), old(Value())) then old(existing.State())
        else Apply(old(existing.State()), old(Value().patch), now)
      ensures error == Some(WorkspaceChanged) <==> old(workspaceId != existing.workspaceId)
      ensures error == Some(IdChanged) <==> old(workspaceId == existing.workspaceId && id != existing.id)
      ensures old(workspaceId == existing.workspaceId && id == existing.id) ==>
        (error == Some(NotEditable(old(existing.status))) <==> old(existing.status) !in {Draft, Scheduled, Paused})
      ensures old(workspaceId == existing.workspaceId && id == existing.id && existing.status in {Draft, Scheduled, Paused}) ==>
        && existing.name == old(name) && existing.updatedAt == now
        && existing.audience.list == old(if listOmitted then existing.audience.list else audience.list)
        && existing.audience.segments == old(if segmentsOmitted then existing.audience.segments else audience.segments)
        && existing.audience.excludeUnsubscribed ==
             old(if excludeOmitted then existing.audience.excludeUnsubscribed else audience.excludeUnsubscribed)
        && existing.schedule == old(if scheduleOmitted then existing.schedule else schedule)
        && existing.tests == old(if testsOmitted then existing.tests else tests)
        && existing.utm == old(if utm == None then existing.utm else utm)
        && existing.metadata == old(if metadata == None then existing.metadata else metadata)
      ensures old(feed == None) ==> existing.feed == old(existing.feed)
      ensures old(workspaceId == existing.workspaceId && id == existing.id && existing.status in {Draft, Scheduled, Paused}
                  && feed != None) ==>
        && existing.feed != None
        && (old(feed).value.global != None ==> existing.feed.value.global == old(feed).value.global)
        && (old(feed).value.recipient != None ==> existing.feed.value.recipient == old(feed).value.recipient)
      ensures existing.id == old(existing.id) && existing.workspaceId == old(existing.workspaceId)
      ensures existing.status == old(existing.status) && existing.rest == old(existing.rest)
    {
      if workspaceId != existing.workspaceId {
        return Some(WorkspaceChanged);
      }
      if id != existing.id {
        return Some(IdChanged);
      }
      if existing.status != Draft && existing.status != Scheduled && existing.status != Paused {
        return Some(NotEditable(existing.status));
      }
      PatchInPlace(existing, now);
      error := SettingsError(env, existing.State());
      ComplaintIsTrue(env, existing.State());
    }
  }
}
