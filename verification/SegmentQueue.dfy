/** The segment recompute queue and its concurrent processors. */
module SegmentQueue {
  import opened Sql
  import opened Timeline
  import opened Triggers
  import opened Workspace

  // ---- what a segment predicate reads --------------------------------------------------------

  /** The logged columns of the contact and its timeline without the membership rows. */
  datatype View = View(contact: Option<map<Column, Json>>, events: seq<TimelineRow>)

  function OwnEvents(rows: seq<TimelineRow>, email: string): seq<TimelineRow> {
    if rows == [] then []
    else OwnEvents(rows[..|rows| - 1], email)
         + (var r := rows[|rows| - 1]; if r.email == email && !IsMembershipKind(r.kind) then [r] else [])
  }

  function ViewOf(db: Db, email: string): View {
    View(if email in db.contacts then Some(db.contacts[email].columns) else None, OwnEvents(db.timeline, email))
  }

  lemma {:induction false} OwnEventsConcat(a: seq<TimelineRow>, b: seq<TimelineRow>, email: string)
    ensures OwnEvents(a + b, email) == OwnEvents(a, email) + OwnEvents(b, email)
    decreases |b|
  {
    if b == [] {
      assert a + b == a;
    } else {
      assert (a + b)[..|a + b| - 1] == a + b[..|b| - 1];
      OwnEventsConcat(a, b[..|b| - 1], email);
    }
  }

  lemma {:induction false} OwnEventsQueue(rows: seq<TimelineRow>, email: string)
    ensures OwnEvents(rows, email) != [] <==> email in Requeued(rows)
  {
    if rows != [] {
      var init, r := rows[..|rows| - 1], rows[|rows| - 1];
      assert rows == init + [r];
      OwnEventsQueue(init, email);
      RequeuedConcat(init, [r]);
      assert r in [r];
    }
  }

  predicate IsMembershipWrite(w: Write) { w.InsertMember? || w.DeleteMember? }

  lemma ContactUpdateLogs(email: string, before: Contact, after: Contact)
    requires before.columns != after.columns
    ensures OwnEvents(ContactUpdateRows(email, before, after), email) != []
  {
    EmptyDiff(before, after);
  }

  /** A write that moves a tracked column logs a row for that contact. */
  lemma TrackedChangeLogs(db: Db, w: Write, now: int, email: string)
    requires Applies(db, w)
    ensures ViewOf(Tables(db, w), email).contact != ViewOf(db, email).contact ==> OwnEvents(Rows(db, w, now), email) != []
  {
    if w.UpdateContact? && w.email == email && db.contacts[email].columns != w.contact.columns {
      ContactUpdateLogs(email, db.contacts[email], w.contact);
    }
  }

  /** A write outside the membership table changes an email's view only by queueing it, and leaves the cache alone. */
  lemma WriteQueuesViewChanges(db: Db, s: Stamped, email: string)
    requires !IsMembershipWrite(s.write)
    ensures Step(db, s).members == db.members
    ensures email in db.queue ==> email in Step(db, s).queue
    ensures email !in Step(db, s).queue ==> ViewOf(Step(db, s), email) == ViewOf(db, email)
    ensures ViewOf(Step(db, s), email) != ViewOf(db, email) ==> email in Step(db, s).queue && Step(db, s).queue[email] == s.now
  {
    if Applies(db, s.write) {
      var rows := Rows(db, s.write, s.now);
      StepAppends(db, s);
      StepProjects(db, s);
      OwnEventsConcat(db.timeline, rows, email);
      OwnEventsQueue(rows, email);
      TrackedChangeLogs(db, s.write, s.now, email);
    }
  }

  // ---- the queue processors --------------------------------------------------------------------

  /** The active segments, in order, their versions and their predicates over views. */
  datatype Config = Config(active: seq<string>, version: string -> int, matches: (string, View) -> bool)

  /** One evaluation of the head of a batch, by a single query: the view it read, and the segments still to be written. */
  datatype Pass = Pass(view: View, todo: seq<string>)

  /** A run of `ProcessQueue`: the claimed emails not done yet, the evaluation of the first one, the failed ones. */
  datatype Worker = Worker(batch: seq<string>, current: Option<Pass>, failed: set<string>)

  const IDLE := Worker([], None, {})

  /**
   * The last three are history. `losses`: the pairs of an email and a segment whose last membership write was lost,
   * and whether the stored membership then differed from the one to be written. `seen`: the view behind the last
   * attempt to write the pair, made or lost. `dropped`: the claimed emails a processor let go of without putting them
   * back, until they are queued again.
   */
  datatype Machine = Machine(
    db: Db, workers: seq<Worker>, losses: map<(string, string), bool>, seen: map<(string, string), View>,
    dropped: set<string>)

  function Start(n: nat): Machine { Machine(EMPTY_DB, seq(n, _ => IDLE), map[], map[], {}) }

  /**
   * `LoseWrite` is a membership write that fails, for a cancelled context or an error of the database: the processor
   * logs it and goes on to the next segment. `LoseRequeue` is a re-enqueue that fails, which is logged as well.
   * `Crash` is a processor that ends at once, wherever it is.
   */
  datatype Action =
    | External(write: Stamped)
    | Claim(i: nat, emails: seq<string>, now: int)
    | Evaluate(i: nat)
    | WriteMembership(i: nat, now: int)
    | LoseWrite(i: nat)
    | Finish(i: nat)
    | FailHead(i: nat)
    | Cancel(i: nat)
    | Requeue(i: nat, now: int)
    | LoseRequeue(i: nat)
    | Crash(i: nat)

  const DEBOUNCE_SECONDS := 15
  const BATCH_SIZE := 1000

  predicate Distinct(s: seq<string>) { forall a, b :: 0 <= a < b < |s| ==> s[a] != s[b] }

  predicate Holds(w: Worker, email: string) { email in w.batch || email in w.failed }

  /**
   * What the code lets happen next. `Claim` takes any eligible rows: SKIP LOCKED may leave some out. The head can
   * fail at any moment, a panic included; between contacts a cancelled context ends the batch.
   */
  predicate Enabled(m: Machine, a: Action) {
    if a.External? then !IsMembershipWrite(a.write.write)
    else a.i < |m.workers| && WorkerMay(m.db, m.workers[a.i], a)
  }

  predicate WorkerMay(db: Db, w: Worker, a: Action)
    requires !a.External?
  {
    match a
    case Claim(_, emails, now) =>
      w == IDLE && 0 < |emails| <= BATCH_SIZE && Distinct(emails)
      && forall e :: e in emails ==> e in db.queue && db.queue[e] < now - DEBOUNCE_SECONDS
    case Evaluate(_) => w.batch != [] && w.current.None?
    case WriteMembership(_, _) => w.batch != [] && w.current.Some? && w.current.value.todo != []
    case LoseWrite(_) => w.batch != [] && w.current.Some? && w.current.value.todo != []
    case Finish(_) => w.batch != [] && w.current.Some? && w.current.value.todo == []
    case FailHead(_) => w.batch != []
    case Cancel(_) => w.batch != [] && w.current.None?
    case Requeue(_, _) => w.batch == [] && w.failed != {}
    case LoseRequeue(_) => w.batch == [] && w.failed != {}
    case Crash(_) => true
  }

  /** `AddContactToSegment` or `RemoveContactFromSegment`; an existing row is only refreshed, which fires no trigger. */
  function WriteOne(cfg: Config, db: Db, email: string, segment: string, member: bool, now: int): Db {
    var key := (email, segment);
    if !member then Step(db, Stamped(DeleteMember(key), now))
    else if key in db.members then db.(members := db.members[key := db.members[key].(version := cfg.version(segment))])
    else Step(db, Stamped(InsertMember(key, Membership(cfg.version(segment), now)), now))
  }

  /** Worker `i` goes on to its next segment. */
  function Advance(m: Machine, i: nat): Machine
    requires i < |m.workers| && m.workers[i].current.Some? && m.workers[i].current.value.todo != []
  {
    var w, p := m.workers[i], m.workers[i].current.value;
    m.(workers := m.workers[i := w.(current := Some(p.(todo := p.todo[1..])))])
  }

  /** Worker `i` lets go of all it holds; what a newer event has queued meanwhile is not lost. */
  function Drop(m: Machine, i: nat): Machine
    requires i < |m.workers|
  {
    var w := m.workers[i];
    m.(workers := m.workers[i := IDLE], dropped := m.dropped + (((set e | e in w.batch) + w.failed) - m.db.queue.Keys))
  }

  function Do(cfg: Config, m: Machine, a: Action): Machine
    requires Enabled(m, a)
  {
    match a
    case External(s) => m.(db := Step(m.db, s), dropped := m.dropped - Step(m.db, s).queue.Keys)
    case Claim(i, emails, _) =>
      m.(db := m.db.(queue := m.db.queue - (set e | e in emails)), workers := m.workers[i := Worker(emails, None, {})])
    case Evaluate(i) =>
      var w := m.workers[i];
      m.(workers := m.workers[i := w.(current := Some(Pass(ViewOf(m.db, w.batch[0]), cfg.active)))])
    case WriteMembership(i, now) =>
      var w, p := m.workers[i], m.workers[i].current.value;
      var key := (w.batch[0], p.todo[0]);
      Advance(m.(db := WriteOne(cfg, m.db, key.0, key.1, cfg.matches(key.1, p.view), now),
                 losses := m.losses - {key}, seen := m.seen[key := p.view]), i)
    case LoseWrite(i) =>
      var w, p := m.workers[i], m.workers[i].current.value;
      var key := (w.batch[0], p.todo[0]);
      Advance(m.(losses := m.losses[key := (key in m.db.members) != cfg.matches(key.1, p.view)],
                 seen := m.seen[key := p.view]), i)
    case Finish(i) => m.(workers := m.workers[i := m.workers[i].(batch := m.workers[i].batch[1..], current := None)])
    case FailHead(i) =>
      var w := m.workers[i];
      m.(workers := m.workers[i := Worker(w.batch[1..], None, w.failed + {w.batch[0]})])
    case Cancel(i) =>
      var w := m.workers[i];
      m.(workers := m.workers[i := w.(batch := [], failed := w.failed + set e | e in w.batch)])
    case Requeue(i, now) =>
      var queue := Enqueue(m.db.queue, m.workers[i].failed, now);
      m.(db := m.db.(queue := queue), workers := m.workers[i := IDLE], dropped := m.dropped - queue.Keys)
    case LoseRequeue(i) => Drop(m, i)
    case Crash(i) => Drop(m, i)
  }

  /** A claim takes no email that a processor still has in flight. */
  predicate Exclusive(m: Machine, a: Action) {
    a.Claim? ==> forall e, j :: e in a.emails && 0 <= j < |m.workers| ==> !Holds(m.workers[j], e)
  }

  predicate Legal(cfg: Config, m: Machine, actions: seq<Action>)
    decreases |actions|
  {
    actions == [] ||
    (Enabled(m, actions[0]) && Legal(cfg, Do(cfg, m, actions[0]), actions[1..]))
  }

  predicate AllExclusive(cfg: Config, m: Machine, actions: seq<Action>)
    requires Legal(cfg, m, actions)
    decreases |actions|
  {
    actions == [] ||
    (Exclusive(m, actions[0]) && AllExclusive(cfg, Do(cfg, m, actions[0]), actions[1..]))
  }

  function Exec(cfg: Config, m: Machine, actions: seq<Action>): Machine
    requires Legal(cfg, m, actions)
    decreases |actions|
  {
    if actions == [] then m else Exec(cfg, Do(cfg, m, actions[0]), actions[1..])
  }

  predicate Held(m: Machine, email: string) {
    exists i :: 0 <= i < |m.workers| && Holds(m.workers[i], email)
  }

  /** The memberships are what a fresh evaluation would give. */
  predicate Agrees(cfg: Config, db: Db, email: string) {
    forall s :: s in cfg.active ==> ((email, s) in db.members <==> cfg.matches(s, ViewOf(db, email)))
  }

  // ---- what a membership write touches ---------------------------------------------------------

  lemma MembershipRowsAreSilent(db: Db, w: Write, now: int)
    requires Applies(db, w) && IsMembershipWrite(w)
    ensures Requeued(Rows(db, w, now)) == {}
    ensures Tables(db, w).contacts == db.contacts
    ensures Tables(db, w).members == if w.InsertMember? then db.members[w.key := w.membership] else db.members - {w.key}
  {
  }

  /** Rows that queue nobody are in nobody's view. */
  lemma SilentRowsKeepView(timeline: seq<TimelineRow>, rows: seq<TimelineRow>, email: string)
    requires Requeued(rows) == {}
    ensures OwnEvents(timeline + rows, email) == OwnEvents(timeline, email)
  {
    OwnEventsConcat(timeline, rows, email);
    OwnEventsQueue(rows, email);
  }

  lemma MembershipStep(db: Db, w: Write, now: int)
    requires Applies(db, w) && IsMembershipWrite(w)
    ensures var db' := Step(db, Stamped(w, now));
      && db'.queue == db.queue
      && db'.members == (if w.InsertMember? then db.members[w.key := w.membership] else db.members - {w.key})
      && forall e :: ViewOf(db', e) == ViewOf(db, e)
  {
    StepAppends(db, Stamped(w, now));
    StepProjects(db, Stamped(w, now));
    MembershipRowsAreSilent(db, w, now);
    forall e ensures ViewOf(Step(db, Stamped(w, now)), e) == ViewOf(db, e) {
      SilentRowsKeepView(db.timeline, Rows(db, w, now), e);
    }
  }

  /** A membership write touches one pair, no view and no queue row. */
  lemma WriteOneFrame(cfg: Config, db: Db, email: string, segment: string, member: bool, now: int)
    ensures var db' := WriteOne(cfg, db, email, segment, member, now);
      && db'.queue == db.queue
      && (forall k :: k != (email, segment) ==> (k in db'.members <==> k in db.members))
      && ((email, segment) in db'.members <==> member)
      && (member ==> db'.members[(email, segment)] == Membership(cfg.version(segment),
                       if (email, segment) in db.members then db.members[(email, segment)].matchedAt else now))
      && (forall e :: ViewOf(db', e) == ViewOf(db, e))
  {
    var key := (email, segment);
    if !member && key in db.members {
      MembershipStep(db, DeleteMember(key), now);
    } else if member && key !in db.members {
      MembershipStep(db, InsertMember(key, Membership(cfg.version(segment), now)), now);
    } else if member {
      SameViews(db, WriteOne(cfg, db, email, segment, member, now));
    }
  }

  lemma SameViews(db: Db, db': Db)
    requires db.contacts == db'.contacts && db.timeline == db'.timeline
    ensures forall e :: ViewOf(db, e) == ViewOf(db', e)
  {
  }

  /** No claim takes a contact within fifteen seconds of an event that changed what its segments see. */
  lemma NewEventsAreLeftToSettle(cfg: Config, m: Machine, s: Stamped, email: string, i: nat, emails: seq<string>, now: int)
    requires Enabled(m, External(s)) && ViewOf(Step(m.db, s), email) != ViewOf(m.db, email)
    requires email in emails && now <= s.now + 15
    ensures !Enabled(Do(cfg, m, External(s)), Claim(i, emails, now))
  {
    WriteQueuesViewChanges(m.db, s, email);
  }
}
