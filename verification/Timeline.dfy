/** The append-only `contact_timeline` table: the shape of its rows and of their `kind`. */
module Timeline {
  import opened Sql

  datatype Operation = Insert | Update | Delete

  datatype EntityType =
    | ContactEntity | ContactListEntity | MessageEntity | InboundEntity | SegmentEntity | CustomEventEntity

  datatype MessageEvent = Sent | Opened | Clicked | Bounced | Complained | Unsubscribed | Updated

  /** Every `kind` a trigger builds. `KindText` is the string stored in the column. */
  datatype Kind =
    | ContactCreated | ContactUpdated
    | ListSubscribed | ListPending | ListUnsubscribed | ListBounced | ListComplained
    | ListConfirmed | ListResubscribed | ListRemoved | ListStatusChanged
    | MessageKind(channel: string, event: MessageEvent)
    | EmailReplied | EmailAutoReply | InsertInboundWebhookEvent
    | SegmentJoined | SegmentLeft
    | CustomEventKind(name: string)

  function EventSuffix(e: MessageEvent): string {
    match e
    case Sent => ".sent"
    case Opened => ".opened"
    case Clicked => ".clicked"
    case Bounced => ".bounced"
    case Complained => ".complained"
    case Unsubscribed => ".unsubscribed"
    case Updated => ".updated"
  }

  function KindText(k: Kind): string {
    match k
    case ContactCreated => "contact.created"
    case ContactUpdated => "contact.updated"
    case ListSubscribed => "list.subscribed"
    case ListPending => "list.pending"
    case ListUnsubscribed => "list.unsubscribed"
    case ListBounced => "list.bounced"
    case ListComplained => "list.complained"
    case ListConfirmed => "list.confirmed"
    case ListResubscribed => "list.resubscribed"
    case ListRemoved => "list.removed"
    case ListStatusChanged => "list.status_changed"
    case MessageKind(channel, event) => channel + EventSuffix(event)
    case EmailReplied => "email.replied"
    case EmailAutoReply => "email.auto_reply"
    case InsertInboundWebhookEvent => "insert_inbound_webhook_event"
    case SegmentJoined => "segment.joined"
    case SegmentLeft => "segment.left"
    case CustomEventKind(name) => "custom_event." + name
  }

  /** The test `NEW.kind IN ('segment.joined', 'segment.left')` of the queue trigger. */
  predicate SkipsQueueText(text: string) {
    text == "segment.joined" || text == "segment.left"
  }

  /** The rows that test is meant for. */
  predicate IsMembershipKind(k: Kind) {
    k.SegmentJoined? || k.SegmentLeft?
  }

  /** The columns of `contacts` whose changes are logged. */
  datatype Column =
    | ExternalId | Timezone | Language | FirstName | LastName | FullName | Phone
    | AddressLine1 | AddressLine2 | Country | Postcode | State | JobTitle
    | CustomString1 | CustomString2 | CustomString3 | CustomString4 | CustomString5
    | CustomNumber1 | CustomNumber2 | CustomNumber3 | CustomNumber4 | CustomNumber5
    | CustomDatetime1 | CustomDatetime2 | CustomDatetime3 | CustomDatetime4 | CustomDatetime5
    | CustomJson1 | CustomJson2 | CustomJson3 | CustomJson4 | CustomJson5

  /** The keys the other triggers write. */
  datatype Key =
    | ListId | Status | DeletedAt
    | TemplateId | TemplateVersion | Channel | BroadcastId | SentAt
    | OpenedAt | ClickedAt | BouncedAt | ComplainedAt | UnsubscribedAt | DeliveredAt | FailedAt | StatusInfo
    | Type | Source | BounceType | BounceCategory | BounceDiagnostic | ComplaintFeedbackType
    | SegmentId | Version | MatchedAt
    | EventName | EventExternalId | OccurredAt | GoalType | GoalValue | GoalName

  /** One member of `changes`: `{"old": .., "new": ..}`, or only one of the two. */
  datatype Entry = OldNew(before: Json, after: Json) | NewOnly(after: Json) | OldOnly(before: Json)

  /** The `changes` object by the trigger that builds it; only custom-event updates nest a `properties` object. */
  datatype Changes =
    | NoChanges
    | ColumnChanges(columns: map<Column, Entry>)
    | FieldChanges(fields: map<Key, Entry>)
    | EventChanges(fields: map<Key, Entry>, properties: map<string, Entry>)

  predicate IsDiff<K>(diff: map<K, Entry>) { forall k :: k in diff ==> diff[k].OldNew? }

  /** Sets each recorded key to its `new` value, removing it when that is null. */
  function Apply<K>(diff: map<K, Entry>, state: map<K, Json>): map<K, Json>
    requires IsDiff(diff)
  {
    map k | k in state.Keys + diff.Keys && (k in diff ==> diff[k].after != JNull)
      :: if k in diff then diff[k].after else state[k]
  }

  /** Sets each recorded key to its `old` value, removing it when that is null. */
  function Revert<K>(diff: map<K, Entry>, state: map<K, Json>): map<K, Json>
    requires IsDiff(diff)
  {
    map k | k in state.Keys + diff.Keys && (k in diff ==> diff[k].before != JNull)
      :: if k in diff then diff[k].before else state[k]
  }

  datatype TimelineRow = TimelineRow(
    email: string, operation: Operation, entity: EntityType, kind: Kind, entityId: Option<string>,
    changes: Changes, createdAt: int)

  /** The character `d` places before the end of a message kind comes from its suffix. */
  function FromEnd(t: string, d: nat): char
    requires d < |t|
  {
    t[|t| - 1 - d]
  }

  lemma MessageKindsAreNotSegmentKinds(channel: string, event: MessageEvent)
    ensures channel + EventSuffix(event) != "segment.joined"
    ensures channel + EventSuffix(event) != "segment.left"
  {
    var t, s, j, l := channel + EventSuffix(event), EventSuffix(event), "segment.joined", "segment.left";
    assert FromEnd(j, 0) == 'd' && FromEnd(j, 4) == 'o' && FromEnd(l, 0) == 't' && FromEnd(l, 1) == 'f';
    assert FromEnd(t, 0) == FromEnd(s, 0) && FromEnd(t, 1) == FromEnd(s, 1) && FromEnd(t, 4) == FromEnd(s, 4);
  }

  /** Whatever the channel or the event name, only segment membership rows skip the queue. */
  lemma OnlySegmentRowsSkipQueue(k: Kind)
    ensures SkipsQueueText(KindText(k)) <==> IsMembershipKind(k)
  {
    var t := KindText(k);
    match k
    case MessageKind(channel, event) => MessageKindsAreNotSegmentKinds(channel, event);
    case SegmentJoined =>
    case SegmentLeft =>
    case _ => assert t[0] != 's' && "segment.joined"[0] == 's' && "segment.left"[0] == 's';
  }

  lemma EmailMessageKindText(channel: string, written: MessageEvent, event: MessageEvent)
    requires event.Sent? || event.Opened?
    ensures channel + EventSuffix(written) == "email" + EventSuffix(event) <==> channel == "email" && written == event
  {
    var t, u, s := channel + EventSuffix(written), "email" + EventSuffix(event), EventSuffix(written);
    assert FromEnd(t, 0) == FromEnd(s, 0) && FromEnd(t, 4) == FromEnd(s, 4);
    if t == u && written == event {
      assert channel == t[..|t| - |s|];
    }
  }

  /** The kind a timeline condition compares with, `email.<event>`, is written for that channel and event only. */
  lemma EmailKindText(k: Kind, event: MessageEvent)
    requires event.Sent? || event.Opened?
    ensures KindText(k) == "email" + EventSuffix(event) <==> k == MessageKind("email", event)
  {
    var t, u := KindText(k), "email" + EventSuffix(event);
    assert u[0] == 'e' && (u[6] == 's' || u[6] == 'o');
    match k
    case MessageKind(channel, written) => EmailMessageKindText(channel, written, event);
    case EmailReplied => assert t[6] == 'r';
    case EmailAutoReply => assert t[6] == 'a';
    case _ => assert t[0] != 'e';
  }
}
