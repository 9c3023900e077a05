/** The workspace database as the statements and trigger functions change it, one assignment at a time. */
module WorkspaceDatabase {
  import opened Sql
  import opened Timeline
  import opened Triggers
  import opened Workspace

  /** The column list of the trigger leaves no column out. */
  lemma EveryColumnIsCompared(k: Column)
    ensures k in CONTACT_COLUMNS
  {
    var i := match k
      case ExternalId => 0 case Timezone => 1 case Language => 2 case FirstName => 3 case LastName => 4
      case FullName => 5 case Phone => 6 case AddressLine1 => 7 case AddressLine2 => 8 case Country => 9
      case Postcode => 10 case State => 11 case JobTitle => 12
      case CustomString1 => 13 case CustomString2 => 14 case CustomString3 => 15 case CustomString4 => 16 case CustomString5 => 17
      case CustomNumber1 => 18 case CustomNumber2 => 19 case CustomNumber3 => 20 case CustomNumber4 => 21 case CustomNumber5 => 22
      case CustomDatetime1 => 23 case CustomDatetime2 => 24 case CustomDatetime3 => 25 case CustomDatetime4 => 26 case CustomDatetime5 => 27
      case CustomJson1 => 28 case CustomJson2 => 29 case CustomJson3 => 30 case CustomJson4 => 31 case CustomJson5 => 32;
    assert CONTACT_COLUMNS[i] == k;
  }

  lemma EnqueueOne(queue: map<string, int>, email: string, now: int)
    ensures Enqueue(queue, {email}, now) == queue[email := now]
  {
  }

  class WorkspaceDb {
    var contacts: map<string, Contact>
    var lists: map<ListKey, ListEntry>
    var messages: map<string, Message>
    var events: map<(string, string), CustomEvent>
    var members: map<(string, string), Membership>
    var timeline: seq<TimelineRow>
    var queue: map<string, int>

    ghost function State(): Db
      reads this
    {
      Db(contacts, lists, messages, events, members, timeline, queue)
    }

    constructor ()
      ensures State() == EMPTY_DB
    {
      contacts, lists, messages, events := map[], map[], map[], map[];
      members, timeline, queue := map[], [], map[];
    }

    /** INSERT INTO contact_timeline, with `queue_contact_for_segment_recomputation` after it. */
    method InsertTimeline(row: TimelineRow, now: int)
      modifies `timeline, `queue
      ensures State() == Append(old(State()), [row], now)
    {
      timeline := timeline + [row];
      OnlySegmentRowsSkipQueue(row.kind);
      RequeuedSingle(row);
      if SkipsQueueText(KindText(row.kind)) {
        return;
      }
      queue := queue[row.email := now];
      EnqueueOne(old(queue), row.email, now);
    }

    /** Inserts the rows of a trigger that writes at most one row. */
    method InsertRows(rows: seq<TimelineRow>, now: int)
      requires |rows| <= 1
      modifies `timeline, `queue
      ensures State() == Append(old(State()), rows, now)
    {
      if |rows| == 1 {
        assert rows == [rows[0]];
        InsertTimeline(rows[0], now);
      } else {
        AppendNothing(State(), now);
        assert rows == [];
      }
    }

    // ---- contacts ----------------------------------------------------------------------

    method InsertContact(email: string, c: Contact, now: int) returns (ok: bool)
      modifies this
      ensures ok == (email !in old(contacts))
      ensures State() == Step(old(State()), Stamped(Write.InsertContact(email, c), now))
    {
      ok := email !in contacts;
      if ok {
        contacts := contacts[email := c];
        InsertTimeline(TimelineRow(email, Insert, ContactEntity, ContactCreated, None, NoChanges, c.createdAt), now);
      }
    }

    /** `changes_json` of `track_contact_changes`, one column after the other. */
    static method DiffColumns(before: Contact, after: Contact) returns (changes: map<Column, Entry>)
      ensures changes == ColumnDiff(before, after)
    {
      changes := map[];
      for i := 0 to |CONTACT_COLUMNS|
        invariant forall k :: k in changes <==> k in CONTACT_COLUMNS[..i] && before.Get(k) != after.Get(k)
        invariant forall k :: k in changes ==> changes[k] == OldNew(Render(before.Get(k)), Render(after.Get(k)))
      {
        var k := CONTACT_COLUMNS[i];
        assert CONTACT_COLUMNS[..i + 1] == CONTACT_COLUMNS[..i] + [k];
        if before.Get(k) != after.Get(k) {
          changes := changes[k := OldNew(Render(before.Get(k)), Render(after.Get(k)))];
        }
      }
      forall k: Column ensures k in CONTACT_COLUMNS { EveryColumnIsCompared(k); }
      assert CONTACT_COLUMNS[..|CONTACT_COLUMNS|] == CONTACT_COLUMNS;
    }

    method UpdateContact(email: string, c: Contact, now: int) returns (ok: bool)
      modifies this
      ensures ok == (email in old(contacts))
      ensures State() == Step(old(State()), Stamped(Write.UpdateContact(email, c), now))
    {
      ok := email in contacts;
      if ok {
        var before := contacts[email];
        contacts := contacts[email := c];
        var changes := DiffColumns(before, c);
        if changes == map[] {
          AppendNothing(State(), now);
          return;
        }
        InsertTimeline(TimelineRow(email, Update, ContactEntity, ContactUpdated, None, ColumnChanges(changes), c.updatedAt), now);
      }
    }

    // ---- contact_lists -----------------------------------------------------------------

    method InsertListEntry(key: ListKey, entry: ListEntry, now: int) returns (ok: bool)
      modifies this
      ensures ok == (key !in old(lists))
      ensures State() == Step(old(State()), Stamped(Write.InsertListEntry(key, entry), now))
    {
      ok := key !in lists;
      if ok {
        lists := lists[key := entry];
        InsertTimeline(ListInsertRows(key.0, key.1, entry, now)[0], now);
      }
    }

    /** UPDATE of one row of contact_lists, with `track_contact_list_changes` after it. */
    method WriteListRow(key: ListKey, entry: ListEntry, now: int)
      requires key in lists
      modifies this
      ensures State() == Append(old(State()).(lists := old(lists)[key := entry]),
                                ListUpdateRows(key.0, key.1, old(lists)[key], entry, now), now)
    {
      var before := lists[key];
      lists := lists[key := entry];
      var changes, kind;
      if before.deletedAt != entry.deletedAt && entry.deletedAt.Some? {
        kind := ListRemoved;
        changes := map[DeletedAt := OldNew(RenderTime(before.deletedAt), RenderTime(entry.deletedAt))];
      } else if before.status != entry.status {
        kind := ListTransitionKind(before.status, entry.status);
        changes := map[Status := OldNew(JStr(before.status), JStr(entry.status))];
      } else {
        AppendNothing(State(), now);
        return;
      }
      InsertTimeline(TimelineRow(key.0, Update, ContactListEntity, kind, Some(key.1), FieldChanges(changes), now), now);
    }

    method UpdateListEntry(key: ListKey, entry: ListEntry, now: int) returns (ok: bool)
      modifies this
      ensures ok == (key in old(lists))
      ensures State() == Step(old(State()), Stamped(Write.UpdateListEntry(key, entry), now))
    {
      ok := key in lists;
      if ok {
        WriteListRow(key, entry, now);
      }
    }

    // ---- message_history ---------------------------------------------------------------

    method InsertMessage(id: string, m: Message, now: int) returns (ok: bool)
      modifies this
      ensures ok == (id !in old(messages))
      ensures State() == Step(old(State()), Stamped(Write.InsertMessage(id, m), now))
    {
      ok := id !in messages;
      if ok {
        messages := messages[id := m];
        InsertTimeline(MessageInsertRows(id, m)[0], now);
      }
    }

    /** `track_message_history_changes` on UPDATE: up to six rows, one IF block each. */
    method TrackMessageUpdate(id: string, before: Message, after: Message, now: int)
      modifies `timeline, `queue
      ensures State() == Append(old(State()), MessageUpdateRows(id, before, after), now)
    {
      ghost var db := State();
      var r1 := StampRows(id, after, MessageEvent.Opened, OpenedAt, before.openedAt, after.openedAt);
      var r2 := StampRows(id, after, MessageEvent.Clicked, ClickedAt, before.clickedAt, after.clickedAt);
      var r3 := StampRows(id, after, MessageEvent.Bounced, BouncedAt, before.bouncedAt, after.bouncedAt);
      var r4 := StampRows(id, after, MessageEvent.Complained, ComplainedAt, before.complainedAt, after.complainedAt);
      var r5 := StampRows(id, after, MessageEvent.Unsubscribed, UnsubscribedAt, before.unsubscribedAt, after.unsubscribedAt);
      InsertRows(r1, now);
      InsertRows(r2, now);
      AppendCompose(db, r1, r2, now);
      InsertRows(r3, now);
      AppendCompose(db, r1 + r2, r3, now);
      InsertRows(r4, now);
      AppendCompose(db, r1 + r2 + r3, r4, now);
      InsertRows(r5, now);
      AppendCompose(db, r1 + r2 + r3 + r4, r5, now);
      var diff := GenericDiff(before, after);
      var r6 := if diff == map[] then [] else [MessageRow(id, after, Update, Updated, diff)];
      InsertRows(r6, now);
      AppendCompose(db, r1 + r2 + r3 + r4 + r5, r6, now);
    }

    /** `UPDATE contact_lists SET status = .. WHERE email = .. AND list_id = .. AND status NOT IN blocked`. */
    method PushStatus(key: ListKey, status: string, at: int, blocked: set<string>, now: int)
      modifies this
      ensures State() == Append(old(State()).(lists := PushLists(old(lists), key, status, at, blocked)),
                                PushRows(old(lists), key, status, at, blocked, now), now)
    {
      if key in lists && lists[key].status !in blocked {
        WriteListRow(key, lists[key].(status := status, updatedAt := at), now);
      } else {
        AppendNothing(State(), now);
      }
    }

    /** `update_contact_lists_on_status_change`. */
    method PushSeverity(before: Message, after: Message, now: int)
      modifies this
      ensures State() == Append(
        old(State()).(lists := AfterBounce(AfterComplaint(old(lists), before, after), before, after)),
        ComplaintRows(old(lists), before, after, now)
        + BounceRows(AfterComplaint(old(lists), before, after), before, after, now), now)
    {
      ghost var db := State();
      ghost var mid := db.(lists := AfterComplaint(lists, before, after));
      ghost var end := mid.(lists := AfterBounce(mid.lists, before, after));
      ghost var cs := ComplaintRows(lists, before, after, now);
      ghost var bs := BounceRows(mid.lists, before, after, now);
      if after.complainedAt.Some? && before.complainedAt.None? {
        if after.listId.Some? {
          PushStatus((after.email, after.listId.value), COMPLAINED, after.complainedAt.value, {COMPLAINED}, now);
        }
      }
      AppendNothing(db, now);
      assert State() == Append(mid, cs, now);
      ghost var afterComplaint := State();
      if after.bouncedAt.Some? && before.bouncedAt.None? {
        if after.listId.Some? {
          PushStatus((after.email, after.listId.value), BOUNCED, after.bouncedAt.value, {COMPLAINED, BOUNCED}, now);
        }
      }
      AppendNothing(afterComplaint, now);
      assert State() == Append(Append(end, cs, now), bs, now);
      AppendCompose(end, cs, bs, now);
    }

    /** UPDATE of one message row: the timeline trigger runs before the status trigger, in name order. */
    method UpdateMessage(id: string, m: Message, now: int) returns (ok: bool)
      modifies this
      ensures ok == (id in old(messages))
      ensures State() == Step(old(State()), Stamped(Write.UpdateMessage(id, m), now))
    {
      ok := id in messages;
      if ok {
        var before := messages[id];
        messages := messages[id := m];
        ghost var db := State();
        TrackMessageUpdate(id, before, m, now);
        PushSeverity(before, m, now);
        ghost var pushed := db.(lists := AfterBounce(AfterComplaint(db.lists, before, m), before, m));
        ghost var rs := MessageUpdateRows(id, before, m);
        ghost var cs := ComplaintRows(db.lists, before, m, now);
        ghost var bs := BounceRows(AfterComplaint(db.lists, before, m), before, m, now);
        AppendCompose(pushed, rs, cs + bs, now);
        assert rs + (cs + bs) == rs + cs + bs;
      }
    }

    // ---- inbound_webhook_events, contact_segments --------------------------------------

    method InsertInbound(e: Inbound, now: int)
      modifies this
      ensures State() == Step(old(State()), Stamped(Write.InsertInbound(e), now))
    {
      InsertTimeline(InboundRows(e, now)[0], now);
    }

    method InsertMember(key: (string, string), m: Membership, now: int) returns (ok: bool)
      modifies this
      ensures ok == (key !in old(members))
      ensures State() == Step(old(State()), Stamped(Write.InsertMember(key, m), now))
    {
      ok := key !in members;
      if ok {
        members := members[key := m];
        InsertTimeline(JoinRows(key.0, key.1, m, now)[0], now);
      }
    }

    method DeleteMember(key: (string, string), now: int) returns (ok: bool)
      modifies this
      ensures ok == (key in old(members))
      ensures State() == Step(old(State()), Stamped(Write.DeleteMember(key), now))
    {
      ok := key in members;
      if ok {
        var row := LeaveRows(key.0, key.1, members[key], now)[0];
        members := members - {key};
        InsertTimeline(row, now);
      }
    }

    // ---- custom_events -----------------------------------------------------------------

    method InsertEvent(key: (string, string), e: CustomEvent, now: int) returns (ok: bool)
      modifies this
      ensures ok == (key !in old(events))
      ensures State() == Step(old(State()), Stamped(Write.InsertEvent(key, e), now))
    {
      ok := key !in events;
      if ok {
        events := events[key := e];
        InsertTimeline(EventInsertRows(key.0, key.1, e)[0], now);
      }
    }

    static lemma DiffOnGrows(before: map<string, Json>, after: map<string, Json>, ks: set<string>, k: string)
      ensures DiffOn(before, after, ks + {k}) ==
        if Prop(before, k) == Prop(after, k) then DiffOn(before, after, ks)
        else DiffOn(before, after, ks)[k := OldNew(Render(Prop(before, k)), Render(Prop(after, k)))]
    {
    }

    /** The key loop of `track_custom_event_timeline`, in whatever order the keys come. */
    static method DiffProperties(before: map<string, Json>, after: map<string, Json>) returns (diff: map<string, Entry>)
      ensures diff == PropertyDiff(before, after)
    {
      diff := map[];
      var keys := before.Keys + after.Keys;
      ghost var seen := {};
      while keys != {}
        invariant seen + keys == before.Keys + after.Keys
        invariant diff == DiffOn(before, after, seen)
        decreases |keys|
      {
        var k :| k in keys;
        DiffOnGrows(before, after, seen, k);
        keys, seen := keys - {k}, seen + {k};
        if Prop(before, k) != Prop(after, k) {
          diff := diff[k := OldNew(Render(Prop(before, k)), Render(Prop(after, k)))];
        }
      }
      assert seen == before.Keys + after.Keys;
    }

    method UpdateEvent(key: (string, string), e: CustomEvent, now: int) returns (ok: bool)
      modifies this
      ensures ok == (key in old(events))
      ensures State() == Step(old(State()), Stamped(Write.UpdateEvent(key, e), now))
    {
      ok := key in events;
      if ok {
        var before := events[key];
        events := events[key := e];
        var properties := DiffProperties(before.properties, e.properties);
        var changes := map[OccurredAt := OldNew(JTime(before.occurredAt), JTime(e.occurredAt))] + GoalDiff(before, e);
        InsertTimeline(TimelineRow(e.email, Update, CustomEventEntity, CustomEventKind(key.0), Some(key.1),
                                   EventChanges(changes, properties), e.occurredAt), now);
      }
    }
  }
}
