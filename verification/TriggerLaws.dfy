/** What each write logs, read off the tables before and after: the text of the rows, whose they are, and what they carry. */
module TriggerLaws {
  import opened Sql
  import opened Timeline
  import opened Triggers
  import opened Workspace

  /** The rows the write has appended. */
  function Logged(db: Db, w: Write, now: int): seq<TimelineRow> {
    var after := Step(db, Stamped(w, now)).timeline;
    if |after| >= |db.timeline| then after[|db.timeline|..] else []
  }

  lemma LoggedIs(db: Db, w: Write, now: int)
    ensures Logged(db, w, now) == if Applies(db, w) then Rows(db, w, now) else []
    ensures Step(db, Stamped(w, now)).timeline == db.timeline + Logged(db, w, now)
  {
    if Applies(db, w) {
      StepAppends(db, Stamped(w, now));
    }
  }

  /** Some appended row of the entity has the text. */
  predicate Says(rows: seq<TimelineRow>, entity: EntityType, text: string) {
    exists r :: r in rows && r.entity == entity && KindText(r.kind) == text
  }

  // ---- inbound messages ------------------------------------------------------------------------

  /** An inbound message logs one row, as a reply, an automatic reply, or neither, by its type. */
  lemma InboundIsLogged(db: Db, e: Inbound, now: int)
    ensures var rows := Logged(db, InsertInbound(e), now);
      && |rows| == 1 && rows[0].email == e.email && rows[0].entity == InboundEntity && rows[0].createdAt == now
      && rows[0].operation == Insert
      && rows[0].entityId == Some(if e.messageId == None then e.id else e.messageId.value)
      && (KindText(rows[0].kind) == "email.replied" <==> e.kind == "reply")
      && (KindText(rows[0].kind) == "email.auto_reply" <==> e.kind == "auto_reply")
      && (KindText(rows[0].kind) == "insert_inbound_webhook_event" <==> e.kind != "reply" && e.kind != "auto_reply")
  {
    LoggedIs(db, InsertInbound(e), now);
    assert |"email.replied"| == 13 && |"email.auto_reply"| == 16 && |"insert_inbound_webhook_event"| == 28;
  }

  /** The key is there exactly for a text that is there and not empty. */
  predicate Carries(fields: map<Key, Entry>, key: Key, text: Option<string>) {
    && (key in fields <==> text.Some? && text.value != "")
    && (key in fields ==> fields[key] == NewOnly(JStr(text.value)))
  }

  lemma EntryCarries(key: Key, text: Option<string>)
    ensures Carries(NonEmptyEntry(key, text), key, text) && NonEmptyEntry(key, text).Keys <= {key}
  {
  }

  /** Adding maps that each have at most a key of their own. */
  lemma Sum(a: map<Key, Entry>, b: map<Key, Entry>, c: map<Key, Entry>, d: map<Key, Entry>, e: map<Key, Entry>,
            kb: Key, kc: Key, kd: Key, ke: Key)
    requires b.Keys <= {kb} && c.Keys <= {kc} && d.Keys <= {kd} && e.Keys <= {ke}
    requires kb != kc && kb != kd && kb != ke && kc != kd && kc != ke && kd != ke
    requires kb !in a && kc !in a && kd !in a && ke !in a
    ensures var f := a + b + c + d + e;
      && (kb in f <==> kb in b) && (kc in f <==> kc in c) && (kd in f <==> kd in d) && (ke in f <==> ke in e)
      && (kb in b ==> f[kb] == b[kb]) && (kc in c ==> f[kc] == c[kc]) && (kd in d ==> f[kd] == d[kd]) && (ke in e ==> f[ke] == e[ke])
      && forall k :: k in a ==> k in f && f[k] == a[k]
  {
  }

  /** The type and the source, and of the four details those that are there and not empty. */
  predicate TellsInbound(f: map<Key, Entry>, e: Inbound) {
    && Type in f && f[Type] == NewOnly(JStr(e.kind)) && Source in f && f[Source] == NewOnly(JStr(e.source))
    && Carries(f, BounceType, e.bounceType) && Carries(f, BounceCategory, e.bounceCategory)
    && Carries(f, BounceDiagnostic, e.bounceDiagnostic) && Carries(f, ComplaintFeedbackType, e.complaintFeedbackType)
  }

  lemma InboundFields(e: Inbound, a: map<Key, Entry>)
    requires a == map[Type := NewOnly(JStr(e.kind)), Source := NewOnly(JStr(e.source))]
    ensures TellsInbound(a + NonEmptyEntry(BounceType, e.bounceType) + NonEmptyEntry(BounceCategory, e.bounceCategory)
                         + NonEmptyEntry(BounceDiagnostic, e.bounceDiagnostic)
                         + NonEmptyEntry(ComplaintFeedbackType, e.complaintFeedbackType), e)
  {
    EntryCarries(BounceType, e.bounceType);
    EntryCarries(BounceCategory, e.bounceCategory);
    EntryCarries(BounceDiagnostic, e.bounceDiagnostic);
    EntryCarries(ComplaintFeedbackType, e.complaintFeedbackType);
    Sum(a, NonEmptyEntry(BounceType, e.bounceType), NonEmptyEntry(BounceCategory, e.bounceCategory),
        NonEmptyEntry(BounceDiagnostic, e.bounceDiagnostic), NonEmptyEntry(ComplaintFeedbackType, e.complaintFeedbackType),
        BounceType, BounceCategory, BounceDiagnostic, ComplaintFeedbackType);
  }

  lemma InboundCarries(db: Db, e: Inbound, now: int)
    ensures var rows := Logged(db, InsertInbound(e), now);
      |rows| == 1 && rows[0].changes.FieldChanges? && TellsInbound(rows[0].changes.fields, e)
  {
    LoggedIs(db, InsertInbound(e), now);
    InboundFields(e, map[Type := NewOnly(JStr(e.kind)), Source := NewOnly(JStr(e.source))]);
  }

  // ---- segment memberships ---------------------------------------------------------------------

  lemma SegmentTexts(k: Kind)
    ensures KindText(k) == "segment.joined" <==> k.SegmentJoined?
    ensures KindText(k) == "segment.left" <==> k.SegmentLeft?
  {
    OnlySegmentRowsSkipQueue(k);
    assert |"segment.joined"| == 14 && |"segment.left"| == 12;
  }

  /** Joining is logged exactly when a membership is inserted, leaving exactly when one is deleted. */
  lemma MembershipsAreLogged(db: Db, w: Write, now: int)
    ensures Says(Logged(db, w, now), SegmentEntity, "segment.joined") <==> w.InsertMember? && w.key !in db.members
    ensures Says(Logged(db, w, now), SegmentEntity, "segment.left") <==> w.DeleteMember? && w.key in db.members
    ensures forall r :: r in Logged(db, w, now) && r.entity == SegmentEntity ==>
      (w.InsertMember? || w.DeleteMember?) && r.email == w.key.0 && r.entityId == Some(w.key.1) && r.createdAt == now
      && r.operation == if w.InsertMember? then Insert else Delete
  {
    LoggedIs(db, w, now);
    forall r | r in Logged(db, w, now) ensures true { SegmentTexts(r.kind); }
    if (w.InsertMember? && w.key !in db.members) || (w.DeleteMember? && w.key in db.members) {
      assert Logged(db, w, now)[0].entity == SegmentEntity;
      SegmentTexts(Logged(db, w, now)[0].kind);
    }
    if Applies(db, w) && !(w.InsertMember? || w.DeleteMember?) {
      NoSegmentRows(db, w, now);
    }
  }

  /** Each with the version, and the time of the match where there is one now. */
  lemma MembershipRowsCarry(db: Db, key: (string, string), m: Membership, now: int)
    ensures key !in db.members ==>
      |Logged(db, InsertMember(key, m), now)| == 1
      && Logged(db, InsertMember(key, m), now)[0].changes == FieldChanges(map[
           SegmentId := NewOnly(JStr(key.1)), Version := NewOnly(JInt(m.version)), MatchedAt := NewOnly(JTime(m.matchedAt))])
    ensures key in db.members ==>
      |Logged(db, DeleteMember(key), now)| == 1
      && Logged(db, DeleteMember(key), now)[0].changes == FieldChanges(map[
           SegmentId := OldOnly(JStr(key.1)), Version := OldOnly(JInt(db.members[key].version))])
  {
    LoggedIs(db, InsertMember(key, m), now);
    LoggedIs(db, DeleteMember(key), now);
  }

  lemma NoSegmentRows(db: Db, w: Write, now: int)
    requires Applies(db, w) && !(w.InsertMember? || w.DeleteMember?)
    ensures forall r :: r in Rows(db, w, now) ==> r.entity != SegmentEntity
  {
    if w.UpdateMessage? {
      MessageUpdateEntities(db, w.id, w.message, now);
    }
  }

  // ---- contacts --------------------------------------------------------------------------------

  /** A contact is logged as created exactly when it is inserted, as updated exactly when an update changes a column. */
  lemma ContactsAreLogged(db: Db, w: Write, now: int)
    ensures Says(Logged(db, w, now), ContactEntity, "contact.created") <==> w.InsertContact? && w.email !in db.contacts
    ensures Says(Logged(db, w, now), ContactEntity, "contact.updated") <==>
      w.UpdateContact? && w.email in db.contacts && db.contacts[w.email].columns != w.contact.columns
    ensures forall r :: r in Logged(db, w, now) && r.entity == ContactEntity ==>
      (w.InsertContact? || w.UpdateContact?) && r.email == w.email && r.entityId == None
      && r.operation == (if w.InsertContact? then Insert else Update)
      && r.createdAt == if w.InsertContact? then w.contact.createdAt else w.contact.updatedAt
  {
    LoggedIs(db, w, now);
    assert "contact.created"[8] == 'c' && "contact.updated"[8] == 'u';
    if Applies(db, w) {
      if w.InsertContact? {
        assert Logged(db, w, now)[0].entity == ContactEntity;
      } else if w.UpdateContact? {
        EmptyDiff(db.contacts[w.email], w.contact);
        assert Logged(db, w, now) != [] ==> Logged(db, w, now)[0].entity == ContactEntity;
      } else {
        NoContactRows(db, w, now);
      }
    }
  }

  lemma NoContactRows(db: Db, w: Write, now: int)
    requires Applies(db, w) && !(w.InsertContact? || w.UpdateContact?)
    ensures forall r :: r in Rows(db, w, now) ==> r.entity != ContactEntity
  {
    if w.UpdateMessage? {
      MessageUpdateEntities(db, w.id, w.message, now);
    }
  }

  // ---- list entries ----------------------------------------------------------------------------

  /** No two kinds of list rows have the same text. */
  lemma ListTextsDiffer(k: Kind)
    requires k in {ListSubscribed, ListPending, ListUnsubscribed, ListBounced, ListComplained, ListConfirmed,
                   ListResubscribed, ListRemoved, ListStatusChanged}
    ensures KindText(k) == "list.subscribed" <==> k == ListSubscribed
    ensures KindText(k) == "list.pending" <==> k == ListPending
    ensures KindText(k) == "list.unsubscribed" <==> k == ListUnsubscribed
    ensures KindText(k) == "list.bounced" <==> k == ListBounced
    ensures KindText(k) == "list.complained" <==> k == ListComplained
    ensures KindText(k) == "list.confirmed" <==> k == ListConfirmed
    ensures KindText(k) == "list.resubscribed" <==> k == ListResubscribed
    ensures KindText(k) == "list.removed" <==> k == ListRemoved
    ensures KindText(k) == "list.status_changed" <==> k == ListStatusChanged
  {
    var t := KindText(k);
    assert "list.subscribed"[5] == 's' && "list.pending"[5] == 'p' && "list.unsubscribed"[5] == 'u' && "list.bounced"[5] == 'b';
    assert "list.complained"[7] == 'm' && "list.confirmed"[7] == 'n' && "list.resubscribed"[7] == 's' && "list.removed"[7] == 'm';
    assert "list.status_changed"[6] == 't' && "list.subscribed"[6] == 'u' && "list.complained"[5] == 'c' && "list.removed"[5] == 'r';
  }

  /** The first row of a list entry names its status; an unknown one counts as subscribed. */
  lemma NewEntryIsLogged(db: Db, key: ListKey, entry: ListEntry, now: int)
    requires key !in db.lists
    ensures var rows, s := Logged(db, InsertListEntry(key, entry), now), entry.status;
      && |rows| == 1 && rows[0].entity == ContactListEntity && rows[0].email == key.0 && rows[0].entityId == Some(key.1)
      && rows[0].operation == Insert && rows[0].createdAt == now
      && rows[0].changes == FieldChanges(map[ListId := NewOnly(JStr(key.1)), Status := NewOnly(JStr(s))])
      && (KindText(rows[0].kind) == "list.pending" <==> s == "pending")
      && (KindText(rows[0].kind) == "list.unsubscribed" <==> s == "unsubscribed")
      && (KindText(rows[0].kind) == "list.bounced" <==> s == "bounced")
      && (KindText(rows[0].kind) == "list.complained" <==> s == "complained")
      && (KindText(rows[0].kind) == "list.subscribed" <==> s !in {"pending", "unsubscribed", "bounced", "complained"})
  {
    LoggedIs(db, InsertListEntry(key, entry), now);
    ListTextsDiffer(Logged(db, InsertListEntry(key, entry), now)[0].kind);
  }

  /** What the text of a later row says of the entry before and after. */
  predicate TellsTransition(text: string, before: ListEntry, after: ListEntry) {
    var removed := before.deletedAt != after.deletedAt && after.deletedAt != None;
    var inactive := before.status in {"unsubscribed", "bounced", "complained"};
    && (text == "list.removed" <==> removed)
    && (text == "list.confirmed" <==> !removed && before.status == "pending" && after.status == "active")
    && (text == "list.resubscribed" <==> !removed && inactive && after.status == "active")
    && (text == "list.subscribed" <==> !removed && before.status != "pending" && !inactive && after.status == "active")
    && (text == "list.unsubscribed" <==> !removed && after.status == "unsubscribed")
    && (text == "list.bounced" <==> !removed && after.status == "bounced")
    && (text == "list.complained" <==> !removed && after.status == "complained")
    && (text == "list.pending" <==> !removed && after.status == "pending")
    && (text == "list.status_changed" <==>
          !removed && after.status !in {"active", "unsubscribed", "bounced", "complained", "pending"})
  }

  /** An update is logged if it stamps the deletion or changes the status, and the one row says which. */
  lemma ListUpdateTells(email: string, list: string, before: ListEntry, after: ListEntry, now: int)
    ensures var rows := ListUpdateRows(email, list, before, after, now);
      && (rows == [] <==> before.status == after.status && (before.deletedAt == after.deletedAt || after.deletedAt == None))
      && |rows| <= 1
      && forall r :: r in rows ==>
           r.entity == ContactListEntity && r.email == email && r.entityId == Some(list) && r.createdAt == now
           && r.operation == Update && TellsTransition(KindText(r.kind), before, after)
           && r.changes == FieldChanges(
                if before.deletedAt != after.deletedAt && after.deletedAt != None
                then map[DeletedAt := OldNew(RenderTime(before.deletedAt), RenderTime(after.deletedAt))]
                else map[Status := OldNew(JStr(before.status), JStr(after.status))])
  {
    var rows := ListUpdateRows(email, list, before, after, now);
    if rows != [] {
      ListTextsDiffer(rows[0].kind);
    }
  }

  /** Whatever the write, a list row of an entry that was there tells what has become of it. */
  lemma ListRowsTell(db: Db, w: Write, now: int, r: TimelineRow)
    requires r in Logged(db, w, now) && r.entity == ContactListEntity && !w.InsertListEntry?
    ensures r.entityId.Some?
    ensures var key, after := (r.email, r.entityId.value), Step(db, Stamped(w, now)).lists;
      key in db.lists && key in after && TellsTransition(KindText(r.kind), db.lists[key], after[key])
  {
    LoggedIs(db, w, now);
    StepProjects(db, Stamped(w, now));
    if w.UpdateListEntry? {
      ListUpdateTells(w.list.0, w.list.1, db.lists[w.list], w.entry, now);
    } else if w.UpdateMessage? {
      PushedRowsTell(db, w.id, w.message, now, r);
    }
  }

  lemma PushedRowsTell(db: Db, id: string, m: Message, now: int, r: TimelineRow)
    requires id in db.messages && r in Rows(db, UpdateMessage(id, m), now) && r.entity == ContactListEntity
    ensures r.entityId.Some?
    ensures var key, after := (r.email, r.entityId.value), Tables(db, UpdateMessage(id, m)).lists;
      key in db.lists && key in after && TellsTransition(KindText(r.kind), db.lists[key], after[key])
  {
    var before := db.messages[id];
    var mid := AfterComplaint(db.lists, before, m);
    var ms, cs, bs := MessageUpdateRows(id, before, m), ComplaintRows(db.lists, before, m, now), BounceRows(mid, before, m, now);
    MessageRowsAreMessages(id, before, m);
    assert r in ms + cs + bs && r !in ms;
    var key := (m.email, m.listId.value);
    ListUpdateTells(key.0, key.1, db.lists[key], mid[key], now);
    ListUpdateTells(key.0, key.1, mid[key], AfterBounce(mid, before, m)[key], now);
  }

  /** What a message update does to a list entry: a new complaint or bounce of that list sets status and time, unless outranked. */
  lemma PushesTell(db: Db, id: string, m: Message, now: int, key: ListKey)
    requires id in db.messages && key in db.lists
    ensures var before, e, after := db.messages[id], db.lists[key], Step(db, Stamped(UpdateMessage(id, m), now)).lists;
      var mine := key.0 == m.email && m.listId == Some(key.1);
      && after.Keys == db.lists.Keys
      && after[key] ==
           if mine && m.complainedAt != None && before.complainedAt == None && e.status != "complained"
           then e.(status := "complained", updatedAt := m.complainedAt.value)
           else if mine && m.bouncedAt != None && before.bouncedAt == None && e.status != "complained" && e.status != "bounced"
           then e.(status := "bounced", updatedAt := m.bouncedAt.value)
           else e
  {
    StepProjects(db, Stamped(UpdateMessage(id, m), now));
  }

  // ---- messages --------------------------------------------------------------------------------

  /** A new message is logged as sent on its channel. */
  lemma NewMessageIsLogged(db: Db, id: string, m: Message, now: int)
    requires id !in db.messages
    ensures var rows := Logged(db, InsertMessage(id, m), now);
      && |rows| == 1 && rows[0].entity == MessageEntity && rows[0].email == m.email && rows[0].entityId == Some(id)
      && rows[0].operation == Insert
      && KindText(rows[0].kind) == m.channel + ".sent" && rows[0].createdAt == m.updatedAt
      && rows[0].changes == FieldChanges(map[
           TemplateId := NewOnly(JStr(m.templateId)), TemplateVersion := NewOnly(JInt(m.templateVersion)),
           Channel := NewOnly(JStr(m.channel)), SentAt := NewOnly(JTime(m.sentAt)),
           BroadcastId := NewOnly(if m.broadcastId == None then JNull else JStr(m.broadcastId.value))])
  {
    LoggedIs(db, InsertMessage(id, m), now);
  }

  /** The row of an engagement column that has moved to a value, with the value before and after. */
  predicate TellsStamp(rows: seq<TimelineRow>, id: string, m: Message, suffix: string, key: Key, before: Option<int>, after: Option<int>) {
    var moved := before != after && after != None;
    && (Says(rows, MessageEntity, m.channel + suffix) <==> moved)
    && forall r :: r in rows && r.entity == MessageEntity && KindText(r.kind) == m.channel + suffix ==>
         r.email == m.email && r.entityId == Some(id) && r.createdAt == m.updatedAt && r.operation == Update
         && r.changes == FieldChanges(map[key := OldNew(if before == None then JNull else JTime(before.value), JTime(after.value))])
  }

  /** A row of that event for that message. */
  predicate OnlyEvent(rows: seq<TimelineRow>, id: string, m: Message, event: MessageEvent) {
    |rows| <= 1 && forall r :: r in rows ==>
      r.entity == MessageEntity && r.kind == MessageKind(m.channel, event)
      && r.email == m.email && r.entityId == Some(id) && r.createdAt == m.updatedAt
  }

  lemma SuffixTells(channel: string, a: MessageEvent, b: MessageEvent)
    ensures channel + EventSuffix(a) == channel + EventSuffix(b) <==> a == b
  {
    var s, t := EventSuffix(a), EventSuffix(b);
    assert (channel + s)[|channel|..] == s && (channel + t)[|channel|..] == t;
    assert ".sent"[1] == 's' && ".opened"[1] == 'o' && ".clicked"[2] == 'l' && ".bounced"[1] == 'b' && ".complained"[2] == 'o';
    assert ".clicked"[1] == 'c' && ".complained"[1] == 'c' && ".unsubscribed"[2] == 'n' && ".updated"[2] == 'p';
    assert ".unsubscribed"[1] == 'u' && ".updated"[1] == 'u';
  }

  lemma StampTells(id: string, m: Message, event: MessageEvent, key: Key, before: Option<int>, after: Option<int>)
    ensures var rows := StampRows(id, m, event, key, before, after);
      OnlyEvent(rows, id, m, event) && TellsStamp(rows, id, m, EventSuffix(event), key, before, after)
  {
    var rows := StampRows(id, m, event, key, before, after);
    if before != after && after.Some? {
      assert rows[0].entity == MessageEntity && KindText(rows[0].kind) == m.channel + EventSuffix(event);
    }
  }

  /** Rows of other events do not matter to what is told of one. */
  lemma OthersTellNothing(rows: seq<TimelineRow>, part: seq<TimelineRow>, id: string, m: Message, event: MessageEvent, key: Key,
                          before: Option<int>, after: Option<int>)
    requires TellsStamp(part, id, m, EventSuffix(event), key, before, after)
    requires forall r :: r in part ==> r in rows
    requires forall r :: r in rows && r !in part ==>
      r.entity != MessageEntity || (r.kind.MessageKind? && r.kind.channel == m.channel && r.kind.event != event)
    ensures TellsStamp(rows, id, m, EventSuffix(event), key, before, after)
  {
    forall r | r in rows && r.entity == MessageEntity && KindText(r.kind) == m.channel + EventSuffix(event) ensures r in part {
      if r !in part {
        SuffixTells(m.channel, r.kind.event, event);
      }
    }
    if Says(part, MessageEntity, m.channel + EventSuffix(event)) {
      var r :| r in part && r.entity == MessageEntity && KindText(r.kind) == m.channel + EventSuffix(event);
      assert r in rows;
    }
  }

  predicate Moved(before: Message, m: Message) {
    before.deliveredAt != m.deliveredAt || before.failedAt != m.failedAt || before.statusInfo != m.statusInfo
  }

  /** The row of the remaining columns: written if one of them has changed, with those that have. */
  predicate TellsDelivery(rows: seq<TimelineRow>, m: Message, before: Message) {
    && (Says(rows, MessageEntity, m.channel + ".updated") <==> Moved(before, m))
    && forall r :: r in rows && r.entity == MessageEntity && KindText(r.kind) == m.channel + ".updated" ==>
         && r.changes.FieldChanges?
         && var f := r.changes.fields;
            && (DeliveredAt in f <==> before.deliveredAt != m.deliveredAt)
            && (FailedAt in f <==> before.failedAt != m.failedAt)
            && (StatusInfo in f <==> before.statusInfo != m.statusInfo)
            && (DeliveredAt in f ==> f[DeliveredAt] == OldNew(RenderTime(before.deliveredAt), RenderTime(m.deliveredAt)))
            && (FailedAt in f ==> f[FailedAt] == OldNew(RenderTime(before.failedAt), RenderTime(m.failedAt)))
            && (StatusInfo in f ==> f[StatusInfo] == OldNew(RenderText(before.statusInfo), RenderText(m.statusInfo)))
  }

  lemma DeliveryTells(id: string, before: Message, m: Message)
    ensures TellsDelivery(DeliveryRows(id, before, m), m, before)
  {
    var diff, g := GenericDiff(before, m), DeliveryRows(id, before, m);
    assert DeliveredAt in diff <==> before.deliveredAt != m.deliveredAt;
    assert FailedAt in diff <==> before.failedAt != m.failedAt;
    assert StatusInfo in diff <==> before.statusInfo != m.statusInfo;
    if diff != map[] {
      var k :| k in diff;
      assert g[0].entity == MessageEntity && KindText(g[0].kind) == m.channel + ".updated";
    }
  }

  lemma OtherDeliveriesTellNothing(rows: seq<TimelineRow>, part: seq<TimelineRow>, m: Message, before: Message)
    requires TellsDelivery(part, m, before) && forall r :: r in part ==> r in rows
    requires forall r :: r in rows && r !in part ==>
      r.entity != MessageEntity || (r.kind.MessageKind? && r.kind.channel == m.channel && r.kind.event != Updated)
    ensures TellsDelivery(rows, m, before)
  {
    forall r | r in rows && r.entity == MessageEntity && KindText(r.kind) == m.channel + ".updated" ensures r in part {
      if r !in part {
        SuffixTells(m.channel, r.kind.event, Updated);
      }
    }
    if Says(part, MessageEntity, m.channel + ".updated") {
      var r :| r in part && r.entity == MessageEntity && KindText(r.kind) == m.channel + ".updated";
      assert r in rows;
    }
  }

  function DeliveryRows(id: string, before: Message, m: Message): seq<TimelineRow> {
    var diff := GenericDiff(before, m);
    if diff == map[] then [] else [MessageRow(id, m, Update, Updated, diff)]
  }

  /** The engagement columns, with the event, its text and the key of each. */
  predicate IsStamp(before: Message, m: Message, event: MessageEvent, suffix: string, key: Key, was: Option<int>, moved: Option<int>) {
    match event
    case Opened => suffix == ".opened" && key == OpenedAt && was == before.openedAt && moved == m.openedAt
    case Clicked => suffix == ".clicked" && key == ClickedAt && was == before.clickedAt && moved == m.clickedAt
    case Bounced => suffix == ".bounced" && key == BouncedAt && was == before.bouncedAt && moved == m.bouncedAt
    case Complained => suffix == ".complained" && key == ComplainedAt && was == before.complainedAt && moved == m.complainedAt
    case Unsubscribed =>
      suffix == ".unsubscribed" && key == UnsubscribedAt && was == before.unsubscribedAt && moved == m.unsubscribedAt
    case _ => false
  }

  lemma InOneOfSix(o: seq<TimelineRow>, c: seq<TimelineRow>, b: seq<TimelineRow>, p: seq<TimelineRow>, u: seq<TimelineRow>,
                   g: seq<TimelineRow>)
    ensures forall r :: r in o + c + b + p + u + g <==> r in o || r in c || r in b || r in p || r in u || r in g
  {
  }

  lemma StampRowsAreOfEvent(id: string, m: Message, event: MessageEvent, key: Key, before: Option<int>, after: Option<int>)
    ensures forall r :: r in StampRows(id, m, event, key, before, after) ==> r.kind == MessageKind(m.channel, event)
  {
  }

  /** A message update's own rows: of each event, those of its own part and no others. */
  lemma RowsByEvent(id: string, before: Message, m: Message)
    ensures var rows := MessageUpdateRows(id, before, m);
      && (forall r :: r in rows ==> r.kind.MessageKind? && r.kind.channel == m.channel)
      && (forall r :: r in StampRows(id, m, Opened, OpenedAt, before.openedAt, m.openedAt) <==> r in rows && r.kind.event == Opened)
      && (forall r :: r in StampRows(id, m, Clicked, ClickedAt, before.clickedAt, m.clickedAt) <==> r in rows && r.kind.event == Clicked)
      && (forall r :: r in StampRows(id, m, Bounced, BouncedAt, before.bouncedAt, m.bouncedAt) <==> r in rows && r.kind.event == Bounced)
      && (forall r :: r in StampRows(id, m, Complained, ComplainedAt, before.complainedAt, m.complainedAt)
            <==> r in rows && r.kind.event == Complained)
      && (forall r :: r in StampRows(id, m, Unsubscribed, UnsubscribedAt, before.unsubscribedAt, m.unsubscribedAt)
            <==> r in rows && r.kind.event == Unsubscribed)
      && (forall r :: r in DeliveryRows(id, before, m) <==> r in rows && r.kind.event == Updated)
  {
    InOneOfSix(StampRows(id, m, Opened, OpenedAt, before.openedAt, m.openedAt),
               StampRows(id, m, Clicked, ClickedAt, before.clickedAt, m.clickedAt),
               StampRows(id, m, Bounced, BouncedAt, before.bouncedAt, m.bouncedAt),
               StampRows(id, m, Complained, ComplainedAt, before.complainedAt, m.complainedAt),
               StampRows(id, m, Unsubscribed, UnsubscribedAt, before.unsubscribedAt, m.unsubscribedAt),
               DeliveryRows(id, before, m));
    StampRowsAreOfEvent(id, m, Opened, OpenedAt, before.openedAt, m.openedAt);
    StampRowsAreOfEvent(id, m, Clicked, ClickedAt, before.clickedAt, m.clickedAt);
    StampRowsAreOfEvent(id, m, Bounced, BouncedAt, before.bouncedAt, m.bouncedAt);
    StampRowsAreOfEvent(id, m, Complained, ComplainedAt, before.complainedAt, m.complainedAt);
    StampRowsAreOfEvent(id, m, Unsubscribed, UnsubscribedAt, before.unsubscribedAt, m.unsubscribedAt);
  }

  lemma PushedRowsAreListRows(db: Db, id: string, m: Message, now: int)
    requires id in db.messages
    ensures forall r :: r in Logged(db, UpdateMessage(id, m), now) ==>
      r in MessageUpdateRows(id, db.messages[id], m) || r.entity == ContactListEntity
    ensures forall r :: r in MessageUpdateRows(id, db.messages[id], m) ==> r in Logged(db, UpdateMessage(id, m), now)
  {
    var before := db.messages[id];
    var mid := AfterComplaint(db.lists, before, m);
    var ms, cs, bs := MessageUpdateRows(id, before, m), ComplaintRows(db.lists, before, m, now), BounceRows(mid, before, m, now);
    LoggedIs(db, UpdateMessage(id, m), now);
    assert AllOf(cs, ContactListEntity) && AllOf(bs, ContactListEntity);
    assert Logged(db, UpdateMessage(id, m), now) == ms + cs + bs;
  }

  /** Each engagement of a message is logged exactly when its own column moves to a value, and with that change. */
  lemma EngagementsAreLogged(db: Db, id: string, m: Message, now: int, event: MessageEvent, suffix: string, key: Key,
                             was: Option<int>, moved: Option<int>)
    requires id in db.messages && IsStamp(db.messages[id], m, event, suffix, key, was, moved)
    ensures TellsStamp(Logged(db, UpdateMessage(id, m), now), id, m, suffix, key, was, moved)
  {
    PushedRowsAreListRows(db, id, m, now);
    RowsByEvent(id, db.messages[id], m);
    StampTells(id, m, event, key, was, moved);
    assert EventSuffix(event) == suffix;
    OthersTellNothing(Logged(db, UpdateMessage(id, m), now), StampRows(id, m, event, key, was, moved), id, m, event, key, was, moved);
  }

  /** So is what becomes of its delivery. */
  lemma DeliveryIsLogged(db: Db, id: string, m: Message, now: int)
    requires id in db.messages
    ensures TellsDelivery(Logged(db, UpdateMessage(id, m), now), m, db.messages[id])
  {
    PushedRowsAreListRows(db, id, m, now);
    RowsByEvent(id, db.messages[id], m);
    DeliveryTells(id, db.messages[id], m);
    OtherDeliveriesTellNothing(Logged(db, UpdateMessage(id, m), now), DeliveryRows(id, db.messages[id], m), m, db.messages[id]);
  }

  // ---- custom events ---------------------------------------------------------------------------

  /** The key is there exactly for a goal field that is set. */
  predicate CarriesNew(fields: map<Key, Entry>, key: Key, value: Option<Json>) {
    (key in fields <==> value.Some?) && (key in fields ==> fields[key] == NewOnly(value.value))
  }

  predicate CarriesChange(fields: map<Key, Entry>, key: Key, before: Json, after: Json, changed: bool) {
    (key in fields <==> changed) && (key in fields ==> fields[key] == OldNew(before, after))
  }

  /** A custom event is logged under its own name when it is inserted, and again at every update. */
  lemma EventsAreLogged(db: Db, w: Write, now: int)
    requires (w.InsertEvent? && w.key !in db.events) || (w.UpdateEvent? && w.key in db.events)
    ensures var rows := Logged(db, w, now);
      && |rows| == 1 && rows[0].entity == CustomEventEntity && KindText(rows[0].kind) == "custom_event." + w.key.0
      && rows[0].operation == (if w.InsertEvent? then Insert else Update)
      && rows[0].email == w.event.email && rows[0].entityId == Some(w.key.1) && rows[0].createdAt == w.event.occurredAt
  {
    LoggedIs(db, w, now);
  }

  predicate TellsGoal(f: map<Key, Entry>, e: CustomEvent) {
    && CarriesNew(f, GoalType, if e.goalType == None then None else Some(JStr(e.goalType.value)))
    && CarriesNew(f, GoalValue, if e.goalValue == None then None else Some(JInt(e.goalValue.value)))
    && CarriesNew(f, GoalName, if e.goalName == None then None else Some(JStr(e.goalName.value)))
  }

  predicate TellsGoalChange(f: map<Key, Entry>, was: CustomEvent, e: CustomEvent) {
    && CarriesChange(f, GoalType, RenderText(was.goalType), RenderText(e.goalType), was.goalType != e.goalType)
    && CarriesChange(f, GoalValue, RenderInt(was.goalValue), RenderInt(e.goalValue), was.goalValue != e.goalValue)
    && CarriesChange(f, GoalName, RenderText(was.goalName), RenderText(e.goalName), was.goalName != e.goalName)
  }

  lemma NewGoalFields(e: CustomEvent)
    ensures TellsGoal(GoalNew(e), e) && forall k :: k in GoalNew(e) ==> k in {GoalType, GoalValue, GoalName}
  {
    assert GoalType in GoalNew(e) <==> e.goalType.Some?;
    assert GoalValue in GoalNew(e) <==> e.goalValue.Some?;
    assert GoalName in GoalNew(e) <==> e.goalName.Some?;
  }

  lemma GoalChangeFields(was: CustomEvent, e: CustomEvent)
    ensures TellsGoalChange(GoalDiff(was, e), was, e) && forall k :: k in GoalDiff(was, e) ==> k in {GoalType, GoalValue, GoalName}
  {
    assert GoalType in GoalDiff(was, e) <==> was.goalType != e.goalType;
    assert GoalValue in GoalDiff(was, e) <==> was.goalValue != e.goalValue;
    assert GoalName in GoalDiff(was, e) <==> was.goalName != e.goalName;
  }

  lemma BesideGoals(base: map<Key, Entry>, goals: map<Key, Entry>)
    requires GoalType !in base && GoalValue !in base && GoalName !in base
    requires forall k :: k in goals ==> k in {GoalType, GoalValue, GoalName}
    ensures forall k :: k in {GoalType, GoalValue, GoalName} ==>
      (k in base + goals <==> k in goals) && (k in goals ==> (base + goals)[k] == goals[k])
    ensures forall k :: k in base ==> k in base + goals && (base + goals)[k] == base[k]
  {
  }

  /** A new event carries its name, its external id, and the goal fields that are set. */
  lemma NewGoalIsLogged(db: Db, key: (string, string), e: CustomEvent, now: int)
    requires key !in db.events
    ensures var rows := Logged(db, InsertEvent(key, e), now);
      |rows| == 1 && rows[0].changes.FieldChanges? &&
      var f := rows[0].changes.fields;
      && EventName in f && f[EventName] == NewOnly(JStr(key.0))
      && EventExternalId in f && f[EventExternalId] == NewOnly(JStr(key.1)) && TellsGoal(f, e)
  {
    LoggedIs(db, InsertEvent(key, e), now);
    NewGoalFields(e);
    BesideGoals(map[EventName := NewOnly(JStr(key.0)), EventExternalId := NewOnly(JStr(key.1))], GoalNew(e));
  }

  /** An update carries the times and those goal fields that have changed. */
  lemma GoalChangesAreLogged(db: Db, key: (string, string), e: CustomEvent, now: int)
    requires key in db.events
    ensures var rows, was := Logged(db, UpdateEvent(key, e), now), db.events[key];
      |rows| == 1 && rows[0].changes.EventChanges? &&
      var f := rows[0].changes.fields;
      CarriesChange(f, OccurredAt, JTime(was.occurredAt), JTime(e.occurredAt), true) && TellsGoalChange(f, was, e)
  {
    var was := db.events[key];
    LoggedIs(db, UpdateEvent(key, e), now);
    GoalChangeFields(was, e);
    BesideGoals(map[OccurredAt := OldNew(JTime(was.occurredAt), JTime(e.occurredAt))], GoalDiff(was, e));
  }

  // ---- the queue -------------------------------------------------------------------------------

  /** A write queues, as of now, exactly those for whom it has logged a row that is not about a membership. */
  lemma QueuesWhomItLogs(db: Db, w: Write, now: int, email: string)
    ensures var q := Step(db, Stamped(w, now)).queue;
      if exists r :: r in Logged(db, w, now) && r.email == email && KindText(r.kind) != "segment.joined" && KindText(r.kind) != "segment.left"
      then email in q && q[email] == now
      else (email in q <==> email in db.queue) && (email in q ==> q[email] == db.queue[email])
  {
    var rows := Logged(db, w, now);
    LoggedIs(db, w, now);
    if Applies(db, w) {
      StepProjects(db, Stamped(w, now));
      forall r | r in rows ensures IsMembershipKind(r.kind) <==> KindText(r.kind) == "segment.joined" || KindText(r.kind) == "segment.left" {
        OnlySegmentRowsSkipQueue(r.kind);
      }
      assert email in Requeued(rows) <==> exists r :: r in rows && r.email == email && !IsMembershipKind(r.kind);
    }
  }
}
