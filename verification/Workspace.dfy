/** One SQL write on a workspace database together with its whole cascade of triggers. */
module Workspace {
  import opened Sql
  import opened Timeline
  import opened Triggers

  type ListKey = (string, string)

  /** The tables the triggers read and write. `queue` is `contact_segment_queue`, by email. */
  datatype Db = Db(
    contacts: map<string, Contact>,
    lists: map<ListKey, ListEntry>,
    messages: map<string, Message>,
    events: map<(string, string), CustomEvent>,
    members: map<(string, string), Membership>,
    timeline: seq<TimelineRow>,
    queue: map<string, int>)

  const EMPTY_DB := Db(map[], map[], map[], map[], map[], [], map[])

  /** One row written by a statement. An INSERT on an existing key aborts, an UPDATE of a missing row matches nothing. */
  datatype Write =
    | InsertContact(email: string, contact: Contact)
    | UpdateContact(email: string, contact: Contact)
    | InsertListEntry(list: ListKey, entry: ListEntry)
    | UpdateListEntry(list: ListKey, entry: ListEntry)
    | InsertMessage(id: string, message: Message)
    | UpdateMessage(id: string, message: Message)
    | InsertInbound(inbound: Inbound)
    | InsertEvent(key: (string, string), event: CustomEvent)
    | UpdateEvent(key: (string, string), event: CustomEvent)
    | InsertMember(key: (string, string), membership: Membership)
    | DeleteMember(key: (string, string))

  /** A write and the CURRENT_TIMESTAMP of its transaction. */
  datatype Stamped = Stamped(write: Write, now: int)

  // ---- the bounce and complaint push into contact_lists -----------------------------------

  /** `UPDATE contact_lists SET status = .. WHERE .. AND status NOT IN blocked` finds a row. */
  predicate Pushes(lists: map<ListKey, ListEntry>, key: ListKey, blocked: set<string>) {
    key in lists && lists[key].status !in blocked
  }

  function PushLists(lists: map<ListKey, ListEntry>, key: ListKey, status: string, at: int, blocked: set<string>): map<ListKey, ListEntry> {
    if Pushes(lists, key, blocked) then lists[key := lists[key].(status := status, updatedAt := at)] else lists
  }

  function PushRows(lists: map<ListKey, ListEntry>, key: ListKey, status: string, at: int, blocked: set<string>, now: int): seq<TimelineRow> {
    if Pushes(lists, key, blocked)
    then ListUpdateRows(key.0, key.1, lists[key], lists[key].(status := status, updatedAt := at), now)
    else []
  }

  predicate NewComplaint(before: Message, after: Message) {
    after.complainedAt.Some? && before.complainedAt.None? && after.listId.Some?
  }

  predicate NewBounce(before: Message, after: Message) {
    after.bouncedAt.Some? && before.bouncedAt.None? && after.listId.Some?
  }

  function AfterComplaint(lists: map<ListKey, ListEntry>, before: Message, after: Message): map<ListKey, ListEntry> {
    if NewComplaint(before, after)
    then PushLists(lists, (after.email, after.listId.value), COMPLAINED, after.complainedAt.value, {COMPLAINED})
    else lists
  }

  function ComplaintRows(lists: map<ListKey, ListEntry>, before: Message, after: Message, now: int): seq<TimelineRow> {
    if NewComplaint(before, after)
    then PushRows(lists, (after.email, after.listId.value), COMPLAINED, after.complainedAt.value, {COMPLAINED}, now)
    else []
  }

  function AfterBounce(lists: map<ListKey, ListEntry>, before: Message, after: Message): map<ListKey, ListEntry> {
    if NewBounce(before, after)
    then PushLists(lists, (after.email, after.listId.value), BOUNCED, after.bouncedAt.value, {COMPLAINED, BOUNCED})
    else lists
  }

  function BounceRows(lists: map<ListKey, ListEntry>, before: Message, after: Message, now: int): seq<TimelineRow> {
    if NewBounce(before, after)
    then PushRows(lists, (after.email, after.listId.value), BOUNCED, after.bouncedAt.value, {COMPLAINED, BOUNCED}, now)
    else []
  }

  // ---- one write ---------------------------------------------------------------------------

  /** Whether the statement touches a row at all. */
  predicate Applies(db: Db, w: Write) {
    match w
    case InsertContact(e, _) => e !in db.contacts
    case UpdateContact(e, _) => e in db.contacts
    case InsertListEntry(k, _) => k !in db.lists
    case UpdateListEntry(k, _) => k in db.lists
    case InsertMessage(id, _) => id !in db.messages
    case UpdateMessage(id, _) => id in db.messages
    case InsertInbound(_) => true
    case InsertEvent(k, _) => k !in db.events
    case UpdateEvent(k, _) => k in db.events
    case InsertMember(k, _) => k !in db.members
    case DeleteMember(k) => k in db.members
  }

  /** The tables other than the timeline and the queue after the write and its cascade. */
  function Tables(db: Db, w: Write): (t: Db)
    requires Applies(db, w)
    ensures t.timeline == db.timeline && t.queue == db.queue
  {
    match w
    case InsertContact(e, c) => db.(contacts := db.contacts[e := c])
    case UpdateContact(e, c) => db.(contacts := db.contacts[e := c])
    case InsertListEntry(k, entry) => db.(lists := db.lists[k := entry])
    case UpdateListEntry(k, entry) => db.(lists := db.lists[k := entry])
    case InsertMessage(id, m) => db.(messages := db.messages[id := m])
    case UpdateMessage(id, m) =>
      var before := db.messages[id];
      db.(messages := db.messages[id := m], lists := AfterBounce(AfterComplaint(db.lists, before, m), before, m))
    case InsertInbound(_) => db
    case InsertEvent(k, e) => db.(events := db.events[k := e])
    case UpdateEvent(k, e) => db.(events := db.events[k := e])
    case InsertMember(k, m) => db.(members := db.members[k := m])
    case DeleteMember(k) => db.(members := db.members - {k})
  }

  /** The timeline rows of the write, in the order the triggers append them. */
  function Rows(db: Db, w: Write, now: int): seq<TimelineRow>
    requires Applies(db, w)
  {
    match w
    case InsertContact(e, c) => ContactInsertRows(e, c)
    case UpdateContact(e, c) => ContactUpdateRows(e, db.contacts[e], c)
    case InsertListEntry(k, entry) => ListInsertRows(k.0, k.1, entry, now)
    case UpdateListEntry(k, entry) => ListUpdateRows(k.0, k.1, db.lists[k], entry, now)
    case InsertMessage(id, m) => MessageInsertRows(id, m)
    case UpdateMessage(id, m) =>
      var before := db.messages[id];
      MessageUpdateRows(id, before, m)
      + ComplaintRows(db.lists, before, m, now)
      + BounceRows(AfterComplaint(db.lists, before, m), before, m, now)
    case InsertInbound(e) => InboundRows(e, now)
    case InsertEvent(k, e) => EventInsertRows(k.0, k.1, e)
    case UpdateEvent(k, e) => EventUpdateRows(k.0, k.1, db.events[k], e)
    case InsertMember(k, m) => JoinRows(k.0, k.1, m, now)
    case DeleteMember(k) => LeaveRows(k.0, k.1, db.members[k], now)
  }

  /** The emails the queue trigger upserts for a batch of timeline rows. */
  function Requeued(rows: seq<TimelineRow>): set<string> {
    set r | r in rows && !IsMembershipKind(r.kind) :: r.email
  }

  function Enqueue(queue: map<string, int>, emails: set<string>, now: int): map<string, int> {
    queue + map e | e in emails :: now
  }

  function Append(db: Db, rows: seq<TimelineRow>, now: int): Db {
    db.(timeline := db.timeline + rows, queue := Enqueue(db.queue, Requeued(rows), now))
  }

  function Step(db: Db, s: Stamped): Db {
    if Applies(db, s.write) then Append(Tables(db, s.write), Rows(db, s.write, s.now), s.now) else db
  }

  function Run(db: Db, ws: seq<Stamped>): Db
    decreases |ws|
  {
    if ws == [] then db else Run(Step(db, ws[0]), ws[1..])
  }

  /** What a write appends is what its triggers write. */
  lemma StepAppends(db: Db, s: Stamped)
    requires Applies(db, s.write)
    ensures var rows := Rows(db, s.write, s.now);
      Step(db, s).timeline == db.timeline + rows && Step(db, s).timeline[|db.timeline|..] == rows
  {
  }

  /** The cascade writes nothing into the tables beyond `Tables`, and queues whom its rows queue. */
  lemma StepProjects(db: Db, s: Stamped)
    requires Applies(db, s.write)
    ensures var t, u := Tables(db, s.write), Step(db, s);
      u.contacts == t.contacts && u.lists == t.lists && u.messages == t.messages && u.events == t.events
      && u.members == t.members && u.queue == Enqueue(db.queue, Requeued(Rows(db, s.write, s.now)), s.now)
  {
  }

  /** An update of a message appends message rows and, through the pushes, list rows. */
  lemma MessageUpdateEntities(db: Db, id: string, m: Message, now: int)
    requires id in db.messages
    ensures forall r :: r in Rows(db, UpdateMessage(id, m), now) ==> r.entity == MessageEntity || r.entity == ContactListEntity
  {
    var before := db.messages[id];
    var mid := AfterComplaint(db.lists, before, m);
    var ms, cs, bs := MessageUpdateRows(id, before, m), ComplaintRows(db.lists, before, m, now), BounceRows(mid, before, m, now);
    MessageRowsAreMessages(id, before, m);
    assert AllOf(cs, ContactListEntity) && AllOf(bs, ContactListEntity);
    assert Rows(db, UpdateMessage(id, m), now) == ms + cs + bs;
  }

  /** Runs compose. */
  lemma {:induction false} RunAppend(db: Db, a: seq<Stamped>, b: seq<Stamped>)
    ensures Run(db, a + b) == Run(Run(db, a), b)
    decreases |a|
  {
    if a == [] {
      assert a + b == b;
    } else {
      RunAppend(Step(db, a[0]), a[1..], b);
      assert (a + b)[1..] == a[1..] + b;
    }
  }

  /** The timeline is append-only over every run. */
  lemma {:induction false} TimelineOnlyGrows(db: Db, ws: seq<Stamped>)
    ensures db.timeline <= Run(db, ws).timeline
    decreases |ws|
  {
    if ws != [] {
      TimelineOnlyGrows(Step(db, ws[0]), ws[1..]);
    }
  }

  lemma RequeuedSingle(r: TimelineRow)
    ensures Requeued([r]) == if IsMembershipKind(r.kind) then {} else {r.email}
  {
    assert forall x :: x in [r] <==> x == r;
  }

  lemma RequeuedConcat(a: seq<TimelineRow>, b: seq<TimelineRow>)
    ensures Requeued(a + b) == Requeued(a) + Requeued(b)
  {
    forall e ensures e in Requeued(a + b) <==> e in Requeued(a) + Requeued(b) {
      if e in Requeued(a) {
        var r :| r in a && !IsMembershipKind(r.kind) && r.email == e;
        assert r in a + b;
      }
      if e in Requeued(b) {
        var r :| r in b && !IsMembershipKind(r.kind) && r.email == e;
        assert r in a + b;
      }
    }
  }

  lemma EnqueueCompose(queue: map<string, int>, s: set<string>, t: set<string>, now: int)
    ensures Enqueue(Enqueue(queue, s, now), t, now) == Enqueue(queue, s + t, now)
  {
  }

  /** Appending row by row, each row firing the queue trigger, is appending at once. */
  lemma AppendCompose(db: Db, a: seq<TimelineRow>, b: seq<TimelineRow>, now: int)
    ensures Append(Append(db, a, now), b, now) == Append(db, a + b, now)
  {
    RequeuedConcat(a, b);
    EnqueueCompose(db.queue, Requeued(a), Requeued(b), now);
    assert (db.timeline + a) + b == db.timeline + (a + b);
  }

  lemma AppendNothing(db: Db, now: int)
    ensures Append(db, [], now) == db
  {
    assert db.timeline + [] == db.timeline;
  }
}
