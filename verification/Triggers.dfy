/** The tables of a workspace and, per table, the timeline rows its trigger functions write. */
module Triggers {
  import opened Sql
  import opened Timeline

  /** The columns `track_contact_changes` compares, in its order. */
  const CONTACT_COLUMNS: seq<Column> := [
    ExternalId, Timezone, Language, FirstName, LastName, FullName, Phone,
    AddressLine1, AddressLine2, Country, Postcode, State, JobTitle,
    CustomString1, CustomString2, CustomString3, CustomString4, CustomString5,
    CustomNumber1, CustomNumber2, CustomNumber3, CustomNumber4, CustomNumber5,
    CustomDatetime1, CustomDatetime2, CustomDatetime3, CustomDatetime4, CustomDatetime5,
    CustomJson1, CustomJson2, CustomJson3, CustomJson4, CustomJson5]

  /** A row of `contacts`; a column with no entry in `columns` is SQL NULL. */
  datatype Contact = Contact(columns: map<Column, Json>, createdAt: int, updatedAt: int) {
    function Get(k: Column): Cell {
      if k in columns then Some(columns[k]) else None
    }
  }

  // The values of `contact_lists.status` the triggers name; the column is an arbitrary string.
  const ACTIVE := "active"
  const PENDING := "pending"
  const UNSUBSCRIBED := "unsubscribed"
  const BOUNCED := "bounced"
  const COMPLAINED := "complained"

  datatype ListEntry = ListEntry(status: string, updatedAt: int, deletedAt: Option<int>)

  /** A row of `message_history`, without the columns no trigger reads. */
  datatype Message = Message(
    email: string, broadcastId: Option<string>, listId: Option<string>, channel: string,
    templateId: string, templateVersion: int, sentAt: int, updatedAt: int,
    openedAt: Option<int>, clickedAt: Option<int>, bouncedAt: Option<int>, complainedAt: Option<int>,
    unsubscribedAt: Option<int>, deliveredAt: Option<int>, failedAt: Option<int>, statusInfo: Option<string>)

  datatype Inbound = Inbound(
    id: string, messageId: Option<string>, email: string, kind: string, source: string,
    bounceType: Option<string>, bounceCategory: Option<string>, bounceDiagnostic: Option<string>,
    complaintFeedbackType: Option<string>)

  datatype CustomEvent = CustomEvent(
    email: string, properties: map<string, Json>, occurredAt: int,
    goalType: Option<string>, goalValue: Option<int>, goalName: Option<string>)

  datatype Membership = Membership(version: int, matchedAt: int)

  // ---- contacts -------------------------------------------------------------------------

  /** The object the 33 `IF OLD.c IS DISTINCT FROM NEW.c` statements build. */
  function ColumnDiff(before: Contact, after: Contact): map<Column, Entry> {
    map k | k in before.columns.Keys + after.columns.Keys && before.Get(k) != after.Get(k)
      :: OldNew(Render(before.Get(k)), Render(after.Get(k)))
  }

  /** The diff is empty exactly when no column changed. */
  lemma EmptyDiff(before: Contact, after: Contact)
    ensures ColumnDiff(before, after) == map[] <==> before.columns == after.columns
  {
    var diff := ColumnDiff(before, after);
    if diff == map[] {
      forall k ensures before.Get(k) == after.Get(k) { assert k !in diff; }
      forall k ensures k in before.columns <==> k in after.columns { assert before.Get(k) == after.Get(k); }
      forall k | k in before.columns ensures before.columns[k] == after.columns[k] { assert before.Get(k) == after.Get(k); }
    }
  }

  function ContactInsertRows(email: string, c: Contact): seq<TimelineRow> {
    [TimelineRow(email, Insert, ContactEntity, ContactCreated, None, NoChanges, c.createdAt)]
  }

  function ContactUpdateRows(email: string, before: Contact, after: Contact): seq<TimelineRow> {
    var diff := ColumnDiff(before, after);
    if diff == map[] then []
    else [TimelineRow(email, Update, ContactEntity, ContactUpdated, None, ColumnChanges(diff), after.updatedAt)]
  }

  // ---- contact_lists --------------------------------------------------------------------

  function ListInsertKind(s: string): Kind {
    if s == ACTIVE then ListSubscribed
    else if s == PENDING then ListPending
    else if s == UNSUBSCRIBED then ListUnsubscribed
    else if s == BOUNCED then ListBounced
    else if s == COMPLAINED then ListComplained
    else ListSubscribed
  }

  function ListTransitionKind(before: string, after: string): Kind {
    if before == PENDING && after == ACTIVE then ListConfirmed
    else if (before == UNSUBSCRIBED || before == BOUNCED || before == COMPLAINED) && after == ACTIVE then ListResubscribed
    else if after == UNSUBSCRIBED then ListUnsubscribed
    else if after == BOUNCED then ListBounced
    else if after == COMPLAINED then ListComplained
    else if after == PENDING then ListPending
    else if after == ACTIVE then ListSubscribed
    else ListStatusChanged
  }

  function ListInsertRows(email: string, listId: string, e: ListEntry, now: int): seq<TimelineRow> {
    [TimelineRow(email, Insert, ContactListEntity, ListInsertKind(e.status), Some(listId),
                 FieldChanges(map[ListId := NewOnly(JStr(listId)), Status := NewOnly(JStr(e.status))]), now)]
  }

  /** The update stamps `deleted_at`, the branch that comes before the status branch. */
  predicate SoftDeletes(before: ListEntry, after: ListEntry) {
    before.deletedAt != after.deletedAt && after.deletedAt.Some?
  }

  function ListUpdateRows(email: string, listId: string, before: ListEntry, after: ListEntry, now: int): seq<TimelineRow> {
    if SoftDeletes(before, after) then
      [TimelineRow(email, Update, ContactListEntity, ListRemoved, Some(listId),
                   FieldChanges(map[DeletedAt := OldNew(RenderTime(before.deletedAt), RenderTime(after.deletedAt))]), now)]
    else if before.status != after.status then
      [TimelineRow(email, Update, ContactListEntity, ListTransitionKind(before.status, after.status), Some(listId),
                   FieldChanges(map[Status := OldNew(JStr(before.status), JStr(after.status))]), now)]
    else []
  }

  // ---- message_history ------------------------------------------------------------------

  function MessageRow(id: string, m: Message, op: Operation, event: MessageEvent, changes: map<Key, Entry>): TimelineRow {
    TimelineRow(m.email, op, MessageEntity, MessageKind(m.channel, event), Some(id), FieldChanges(changes), m.updatedAt)
  }

  function MessageInsertRows(id: string, m: Message): seq<TimelineRow> {
    [MessageRow(id, m, Insert, Sent,
                map[TemplateId := NewOnly(JStr(m.templateId)), TemplateVersion := NewOnly(JInt(m.templateVersion)),
                    Channel := NewOnly(JStr(m.channel)), BroadcastId := NewOnly(RenderText(m.broadcastId)),
                    SentAt := NewOnly(JTime(m.sentAt))])]
  }

  /** One engagement column: a row when its value changed to something other than NULL. */
  function StampRows(id: string, m: Message, event: MessageEvent, key: Key, before: Option<int>, after: Option<int>): seq<TimelineRow> {
    if before != after && after.Some?
    then [MessageRow(id, m, Update, event, map[key := OldNew(RenderTime(before), RenderTime(after))])]
    else []
  }

  function GenericDiff(before: Message, after: Message): map<Key, Entry> {
    (if before.deliveredAt != after.deliveredAt
     then map[DeliveredAt := OldNew(RenderTime(before.deliveredAt), RenderTime(after.deliveredAt))] else map[]) +
    (if before.failedAt != after.failedAt
     then map[FailedAt := OldNew(RenderTime(before.failedAt), RenderTime(after.failedAt))] else map[]) +
    (if before.statusInfo != after.statusInfo
     then map[StatusInfo := OldNew(RenderText(before.statusInfo), RenderText(after.statusInfo))] else map[])
  }

  function MessageUpdateRows(id: string, before: Message, after: Message): seq<TimelineRow> {
    StampRows(id, after, MessageEvent.Opened, OpenedAt, before.openedAt, after.openedAt)
    + StampRows(id, after, MessageEvent.Clicked, ClickedAt, before.clickedAt, after.clickedAt)
    + StampRows(id, after, MessageEvent.Bounced, BouncedAt, before.bouncedAt, after.bouncedAt)
    + StampRows(id, after, MessageEvent.Complained, ComplainedAt, before.complainedAt, after.complainedAt)
    + StampRows(id, after, MessageEvent.Unsubscribed, UnsubscribedAt, before.unsubscribedAt, after.unsubscribedAt)
    + (var diff := GenericDiff(before, after);
       if diff == map[] then [] else [MessageRow(id, after, Update, Updated, diff)])
  }

  predicate AllOf(rows: seq<TimelineRow>, entity: EntityType) {
    forall r :: r in rows ==> r.entity == entity
  }

  lemma AllOfConcat(a: seq<TimelineRow>, b: seq<TimelineRow>, entity: EntityType)
    requires AllOf(a, entity) && AllOf(b, entity)
    ensures AllOf(a + b, entity)
  {
  }

  lemma MessageRowsAreMessages(id: string, before: Message, after: Message)
    ensures AllOf(MessageUpdateRows(id, before, after), MessageEntity)
  {
    var o := StampRows(id, after, MessageEvent.Opened, OpenedAt, before.openedAt, after.openedAt);
    var c := StampRows(id, after, MessageEvent.Clicked, ClickedAt, before.clickedAt, after.clickedAt);
    var b := StampRows(id, after, MessageEvent.Bounced, BouncedAt, before.bouncedAt, after.bouncedAt);
    var p := StampRows(id, after, MessageEvent.Complained, ComplainedAt, before.complainedAt, after.complainedAt);
    var u := StampRows(id, after, MessageEvent.Unsubscribed, UnsubscribedAt, before.unsubscribedAt, after.unsubscribedAt);
    var diff := GenericDiff(before, after);
    var g := if diff == map[] then [] else [MessageRow(id, after, Update, Updated, diff)];
    AllOfConcat(o, c, MessageEntity);
    AllOfConcat(o + c, b, MessageEntity);
    AllOfConcat(o + c + b, p, MessageEntity);
    AllOfConcat(o + c + b + p, u, MessageEntity);
    AllOfConcat(o + c + b + p + u, g, MessageEntity);
  }

  // ---- inbound_webhook_events -----------------------------------------------------------

  function InboundKind(kind: string): Kind {
    if kind == "reply" then EmailReplied
    else if kind == "auto_reply" then EmailAutoReply
    else InsertInboundWebhookEvent
  }

  function NonEmptyEntry(key: Key, text: Option<string>): map<Key, Entry> {
    if text.Some? && text.value != "" then map[key := NewOnly(JStr(text.value))] else map[]
  }

  function InboundRows(e: Inbound, now: int): seq<TimelineRow> {
    [TimelineRow(e.email, Insert, InboundEntity, InboundKind(e.kind),
                 Some(if e.messageId.Some? then e.messageId.value else e.id),
                 FieldChanges(map[Type := NewOnly(JStr(e.kind)), Source := NewOnly(JStr(e.source))]
                      + NonEmptyEntry(BounceType, e.bounceType) + NonEmptyEntry(BounceCategory, e.bounceCategory)
                      + NonEmptyEntry(BounceDiagnostic, e.bounceDiagnostic)
                      + NonEmptyEntry(ComplaintFeedbackType, e.complaintFeedbackType)), now)]
  }

  // ---- contact_segments -----------------------------------------------------------------

  function JoinRows(email: string, segment: string, m: Membership, now: int): seq<TimelineRow> {
    [TimelineRow(email, Insert, SegmentEntity, SegmentJoined, Some(segment),
                 FieldChanges(map[SegmentId := NewOnly(JStr(segment)), Version := NewOnly(JInt(m.version)),
                          MatchedAt := NewOnly(JTime(m.matchedAt))]), now)]
  }

  function LeaveRows(email: string, segment: string, m: Membership, now: int): seq<TimelineRow> {
    [TimelineRow(email, Delete, SegmentEntity, SegmentLeft, Some(segment),
                 FieldChanges(map[SegmentId := OldOnly(JStr(segment)), Version := OldOnly(JInt(m.version))]), now)]
  }

  // ---- custom_events --------------------------------------------------------------------

  /** `properties -> key`: SQL NULL when the key is absent. */
  function Prop(p: map<string, Json>, k: string): Cell {
    if k in p then Some(p[k]) else None
  }

  /** The differences among the keys `ks`. */
  function DiffOn(before: map<string, Json>, after: map<string, Json>, ks: set<string>): map<string, Entry> {
    map k | k in ks && Prop(before, k) != Prop(after, k) :: OldNew(Render(Prop(before, k)), Render(Prop(after, k)))
  }

  /** The object the key loop over both property sets builds. */
  function PropertyDiff(before: map<string, Json>, after: map<string, Json>): map<string, Entry> {
    DiffOn(before, after, before.Keys + after.Keys)
  }

  function RenderInt(v: Option<int>): Json {
    match v
    case None => JNull
    case Some(n) => JInt(n)
  }

  function GoalNew(e: CustomEvent): map<Key, Entry> {
    (if e.goalType.Some? then map[GoalType := NewOnly(JStr(e.goalType.value))] else map[])
    + (if e.goalValue.Some? then map[GoalValue := NewOnly(JInt(e.goalValue.value))] else map[])
    + (if e.goalName.Some? then map[GoalName := NewOnly(JStr(e.goalName.value))] else map[])
  }

  function GoalDiff(before: CustomEvent, after: CustomEvent): map<Key, Entry> {
    (if before.goalType != after.goalType
     then map[GoalType := OldNew(RenderText(before.goalType), RenderText(after.goalType))] else map[])
    + (if before.goalValue != after.goalValue
       then map[GoalValue := OldNew(RenderInt(before.goalValue), RenderInt(after.goalValue))] else map[])
    + (if before.goalName != after.goalName
       then map[GoalName := OldNew(RenderText(before.goalName), RenderText(after.goalName))] else map[])
  }

  function EventInsertRows(name: string, externalId: string, e: CustomEvent): seq<TimelineRow> {
    [TimelineRow(e.email, Insert, CustomEventEntity, CustomEventKind(name), Some(externalId),
                 FieldChanges(map[EventName := NewOnly(JStr(name)), EventExternalId := NewOnly(JStr(externalId))] + GoalNew(e)),
                 e.occurredAt)]
  }

  function EventUpdateRows(name: string, externalId: string, before: CustomEvent, after: CustomEvent): seq<TimelineRow> {
    [TimelineRow(after.email, Update, CustomEventEntity, CustomEventKind(name), Some(externalId),
                 EventChanges(map[OccurredAt := OldNew(JTime(before.occurredAt), JTime(after.occurredAt))] + GoalDiff(before, after),
                              PropertyDiff(before.properties, after.properties)), after.occurredAt)]
  }
}
