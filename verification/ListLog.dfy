/** The `contact_list` rows of the timeline tell the stored status of every list entry. */
module ListLog {
  import opened Sql
  import opened Timeline
  import opened Triggers
  import opened Workspace

  predicate TellsStatus(row: TimelineRow, key: ListKey) {
    row.entity == ContactListEntity && row.email == key.0 && row.entityId == Some(key.1)
    && row.changes.FieldChanges? && Status in row.changes.fields && !row.changes.fields[Status].OldOnly?
  }

  /** The status the last row about the entry says it has, if any row does. */
  function LoggedStatus(rows: seq<TimelineRow>, key: ListKey): Cell {
    if rows == [] then None
    else if TellsStatus(rows[|rows| - 1], key) then Some(rows[|rows| - 1].changes.fields[Status].after)
    else LoggedStatus(rows[..|rows| - 1], key)
  }

  lemma {:induction false} LoggedStatusConcat(a: seq<TimelineRow>, b: seq<TimelineRow>, key: ListKey)
    ensures LoggedStatus(a + b, key) ==
      if LoggedStatus(b, key).Some? then LoggedStatus(b, key) else LoggedStatus(a, key)
    decreases |b|
  {
    if b == [] {
      assert a + b == a;
    } else {
      assert (a + b)[..|a + b| - 1] == a + b[..|b| - 1];
      LoggedStatusConcat(a, b[..|b| - 1], key);
    }
  }

  lemma {:induction false} OtherRowsTellNothing(rows: seq<TimelineRow>, key: ListKey)
    requires forall r :: r in rows ==> !TellsStatus(r, key)
    ensures LoggedStatus(rows, key) == None
  {
    if rows != [] {
      OtherRowsTellNothing(rows[..|rows| - 1], key);
    }
  }

  /** Every entry has the status its log ends with, and nothing is logged about entries that do not exist. */
  ghost predicate Agrees(lists: map<ListKey, ListEntry>, log: seq<TimelineRow>) {
    forall key :: LoggedStatus(log, key) == if key in lists then Some(JStr(lists[key].status)) else None
  }

  /** The row is `list.confirmed` or `list.resubscribed` only after a log that allows it. */
  ghost predicate Justified(log: seq<TimelineRow>, row: TimelineRow) {
    row.entity == ContactListEntity && row.entityId.Some? ==>
      var told := LoggedStatus(log, (row.email, row.entityId.value));
      && (row.kind == ListConfirmed ==> told == Some(JStr(PENDING)))
      && (row.kind == ListResubscribed ==>
            told == Some(JStr(UNSUBSCRIBED)) || told == Some(JStr(BOUNCED)) || told == Some(JStr(COMPLAINED)))
  }

  ghost predicate Narrated(log: seq<TimelineRow>) {
    forall i :: 0 <= i < |log| ==> Justified(log[..i], log[i])
  }

  /** The log is both: true to the table and coherent. */
  ghost predicate Faithful(lists: map<ListKey, ListEntry>, log: seq<TimelineRow>) {
    Agrees(lists, log) && Narrated(log)
  }

  lemma NarratedSnoc(log: seq<TimelineRow>, row: TimelineRow)
    requires Narrated(log) && Justified(log, row)
    ensures Narrated(log + [row])
  {
    forall i | 0 <= i < |log + [row]| ensures Justified((log + [row])[..i], (log + [row])[i]) {
      if i < |log| {
        assert (log + [row])[..i] == log[..i];
        assert Justified(log[..i], log[i]);
      } else {
        assert (log + [row])[..i] == log;
      }
    }
  }

  /** One row about a key moves the logged status of that key only. */
  lemma SnocAgrees(lists: map<ListKey, ListEntry>, log: seq<TimelineRow>, key: ListKey, entry: ListEntry, row: TimelineRow)
    requires Agrees(lists, log)
    requires row.entity == ContactListEntity && row.email == key.0 && row.entityId == Some(key.1)
    requires if TellsStatus(row, key) then row.changes.fields[Status].after == JStr(entry.status)
             else key in lists && lists[key].status == entry.status
    ensures Agrees(lists[key := entry], log + [row])
  {
    forall k ensures LoggedStatus(log + [row], k) ==
      if k in lists[key := entry] then Some(JStr(lists[key := entry][k].status)) else None
    {
      LoggedStatusConcat(log, [row], k);
      assert [row][..0] == [];
      assert TellsStatus(row, k) ==> k == key;
    }
  }

  lemma ForeignRowsKeepFaith(lists: map<ListKey, ListEntry>, log: seq<TimelineRow>, rows: seq<TimelineRow>)
    requires Faithful(lists, log)
    requires forall r :: r in rows ==> r.entity != ContactListEntity
    ensures Faithful(lists, log + rows)
  {
    forall key ensures LoggedStatus(log + rows, key) == LoggedStatus(log, key) {
      LoggedStatusConcat(log, rows, key);
      OtherRowsTellNothing(rows, key);
    }
    forall i | 0 <= i < |log + rows| ensures Justified((log + rows)[..i], (log + rows)[i]) {
      if i < |log| {
        assert (log + rows)[..i] == log[..i];
        assert Justified(log[..i], log[i]);
      } else {
        assert (log + rows)[i] in rows;
      }
    }
  }

  lemma TransitionKindMeaning(before: string, after: string)
    ensures ListTransitionKind(before, after) == ListConfirmed <==> before == PENDING && after == ACTIVE
    ensures ListTransitionKind(before, after) == ListResubscribed <==>
            (before == UNSUBSCRIBED || before == BOUNCED || before == COMPLAINED) && after == ACTIVE
  {
    assert |PENDING| == 7 && |UNSUBSCRIBED| == 12 && |BOUNCED| == 7 && |COMPLAINED| == 10;
    assert PENDING[0] == 'p' && BOUNCED[0] == 'b';
  }

  /** An update hides a status change when the same statement also stamps `deleted_at`. */
  predicate Hides(before: ListEntry, after: ListEntry) {
    SoftDeletes(before, after) && before.status != after.status
  }

  lemma EntryUpdateKeepsFaith(lists: map<ListKey, ListEntry>, log: seq<TimelineRow>, key: ListKey, after: ListEntry, now: int)
    requires Faithful(lists, log) && key in lists && !Hides(lists[key], after)
    ensures Faithful(lists[key := after], log + ListUpdateRows(key.0, key.1, lists[key], after, now))
  {
    var rows := ListUpdateRows(key.0, key.1, lists[key], after, now);
    if rows == [] {
      assert log + rows == log;
    } else {
      TransitionKindMeaning(lists[key].status, after.status);
      SnocAgrees(lists, log, key, after, rows[0]);
      NarratedSnoc(log, rows[0]);
    }
  }

  lemma EntryInsertKeepsFaith(lists: map<ListKey, ListEntry>, log: seq<TimelineRow>, key: ListKey, entry: ListEntry, now: int)
    requires Faithful(lists, log) && key !in lists
    ensures Faithful(lists[key := entry], log + ListInsertRows(key.0, key.1, entry, now))
  {
    var rows := ListInsertRows(key.0, key.1, entry, now);
    SnocAgrees(lists, log, key, entry, rows[0]);
    NarratedSnoc(log, rows[0]);
  }

  lemma PushKeepsFaith(lists: map<ListKey, ListEntry>, log: seq<TimelineRow>, key: ListKey, status: string, at: int, blocked: set<string>, now: int)
    requires Faithful(lists, log)
    ensures Faithful(PushLists(lists, key, status, at, blocked), log + PushRows(lists, key, status, at, blocked, now))
  {
    if Pushes(lists, key, blocked) {
      EntryUpdateKeepsFaith(lists, log, key, lists[key].(status := status, updatedAt := at), now);
    } else {
      assert log + [] == log;
    }
  }

  lemma ComplaintKeepsFaith(lists: map<ListKey, ListEntry>, log: seq<TimelineRow>, before: Message, after: Message, now: int)
    requires Faithful(lists, log)
    ensures Faithful(AfterComplaint(lists, before, after), log + ComplaintRows(lists, before, after, now))
  {
    if NewComplaint(before, after) {
      PushKeepsFaith(lists, log, (after.email, after.listId.value), COMPLAINED, after.complainedAt.value, {COMPLAINED}, now);
    } else {
      assert log + [] == log;
    }
  }

  lemma BounceKeepsFaith(lists: map<ListKey, ListEntry>, log: seq<TimelineRow>, before: Message, after: Message, now: int)
    requires Faithful(lists, log)
    ensures Faithful(AfterBounce(lists, before, after), log + BounceRows(lists, before, after, now))
  {
    if NewBounce(before, after) {
      PushKeepsFaith(lists, log, (after.email, after.listId.value), BOUNCED, after.bouncedAt.value, {COMPLAINED, BOUNCED}, now);
    } else {
      assert log + [] == log;
    }
  }

  lemma MessageUpdateKeepsFaith(lists: map<ListKey, ListEntry>, log: seq<TimelineRow>, id: string, before: Message, after: Message, now: int)
    requires Faithful(lists, log)
    ensures Faithful(AfterBounce(AfterComplaint(lists, before, after), before, after),
      log + (MessageUpdateRows(id, before, after) + ComplaintRows(lists, before, after, now)
             + BounceRows(AfterComplaint(lists, before, after), before, after, now)))
  {
    var ms, cs := MessageUpdateRows(id, before, after), ComplaintRows(lists, before, after, now);
    var mid := AfterComplaint(lists, before, after);
    var bs := BounceRows(mid, before, after, now);
    MessageRowsAreMessages(id, before, after);
    ForeignRowsKeepFaith(lists, log, ms);
    ComplaintKeepsFaith(lists, log + ms, before, after, now);
    BounceKeepsFaith(mid, log + ms + cs, before, after, now);
    assert log + ms + cs + bs == log + (ms + cs + bs);
  }

  predicate HidingWrite(db: Db, w: Write) {
    w.UpdateListEntry? && w.list in db.lists && Hides(db.lists[w.list], w.entry)
  }

  /**
   * An update that stamps `deleted_at` and changes the status at once, which no statement of the repository does:
   * the trigger would log the deletion alone, and the log would always be broken.
   */
  lemma HidingBreaksAgreement(db: Db, s: Stamped)
    requires Agrees(db.lists, db.timeline) && HidingWrite(db, s.write)
    ensures !Agrees(Step(db, s).lists, Step(db, s).timeline)
  {
    var key := s.write.list;
    var rows := Rows(db, s.write, s.now);
    LoggedStatusConcat(db.timeline, rows, key);
    OtherRowsTellNothing(rows, key);
    assert LoggedStatus(Step(db, s).timeline, key) == Some(JStr(db.lists[key].status));
  }

  predicate Quiet(w: Write) {
    !(w.UpdateListEntry? || w.InsertListEntry? || w.UpdateMessage?)
  }

  lemma AppliedWriteKeepsFaith(db: Db, w: Write, now: int)
    requires Faithful(db.lists, db.timeline) && Applies(db, w) && !HidingWrite(db, w)
    ensures Faithful(Tables(db, w).lists, db.timeline + Rows(db, w, now))
  {
    match w
    case UpdateListEntry(k, e) => EntryUpdateKeepsFaith(db.lists, db.timeline, k, e, now);
    case InsertListEntry(k, e) => EntryInsertKeepsFaith(db.lists, db.timeline, k, e, now);
    case UpdateMessage(id, m) => MessageUpdateKeepsFaith(db.lists, db.timeline, id, db.messages[id], m, now);
    case _ =>
      ForeignRowsKeepFaith(db.lists, db.timeline, Rows(db, w, now));
  }

  /** From a faithful state a write keeps the log faithful exactly when it hides no status change. */
  lemma StepKeepsFaith(db: Db, s: Stamped)
    requires Faithful(db.lists, db.timeline)
    ensures Faithful(Step(db, s).lists, Step(db, s).timeline) <==> !HidingWrite(db, s.write)
  {
    if HidingWrite(db, s.write) {
      HidingBreaksAgreement(db, s);
    } else if Applies(db, s.write) {
      StepAppends(db, s);
      StepProjects(db, s);
      AppliedWriteKeepsFaith(db, s.write, s.now);
    }
  }

  predicate NothingHidden(db: Db, ws: seq<Stamped>)
    decreases |ws|
  {
    ws == [] || (!HidingWrite(db, ws[0].write) && NothingHidden(Step(db, ws[0]), ws[1..]))
  }

  /** Over every run without such a statement, cascades included, the log tells every stored status. */
  lemma {:induction false} ListLogIsFaithful(db: Db, ws: seq<Stamped>)
    requires Faithful(db.lists, db.timeline) && NothingHidden(db, ws)
    ensures Faithful(Run(db, ws).lists, Run(db, ws).timeline)
    decreases |ws|
  {
    if ws != [] {
      StepKeepsFaith(db, ws[0]);
      ListLogIsFaithful(Step(db, ws[0]), ws[1..]);
    }
  }

  lemma EmptyIsFaithful()
    ensures Faithful(EMPTY_DB.lists, EMPTY_DB.timeline)
  {
  }

  // ---- at most one row per entry and write ------------------------------------------------

  function About(rows: seq<TimelineRow>, key: ListKey): nat {
    if rows == [] then 0
    else (if rows[0].entity == ContactListEntity && rows[0].email == key.0 && rows[0].entityId == Some(key.1) then 1 else 0)
         + About(rows[1..], key)
  }

  lemma {:induction false} AboutConcat(a: seq<TimelineRow>, b: seq<TimelineRow>, key: ListKey)
    ensures About(a + b, key) == About(a, key) + About(b, key)
    decreases |a|
  {
    if a == [] {
      assert a + b == b;
    } else {
      AboutConcat(a[1..], b, key);
      assert (a + b)[1..] == a[1..] + b;
    }
  }

  lemma {:induction false} AboutForeign(rows: seq<TimelineRow>, key: ListKey)
    requires forall r :: r in rows ==> r.entity != ContactListEntity
    ensures About(rows, key) == 0
  {
    if rows != [] {
      assert rows[0] in rows;
      AboutForeign(rows[1..], key);
    }
  }

  lemma AboutAtMostLength(rows: seq<TimelineRow>, key: ListKey)
    requires |rows| <= 1
    ensures About(rows, key) <= 1 && (rows == [] ==> About(rows, key) == 0)
  {
  }

  lemma MessageUpdateAtMostOneRow(lists: map<ListKey, ListEntry>, id: string, before: Message, after: Message, now: int, key: ListKey)
    ensures About(MessageUpdateRows(id, before, after) + ComplaintRows(lists, before, after, now)
                  + BounceRows(AfterComplaint(lists, before, after), before, after, now), key) <= 1
  {
    var ms, cs := MessageUpdateRows(id, before, after), ComplaintRows(lists, before, after, now);
    var bs := BounceRows(AfterComplaint(lists, before, after), before, after, now);
    MessageRowsAreMessages(id, before, after);
    AboutForeign(ms, key);
    AboutConcat(ms, cs, key);
    AboutConcat(ms + cs, bs, key);
    AboutAtMostLength(cs, key);
    AboutAtMostLength(bs, key);
  }

  /** Even a statement that stamps a complaint and a bounce at once writes one row per entry: the complaint blocks the bounce. */
  lemma AtMostOneRowPerEntry(db: Db, w: Write, now: int, key: ListKey)
    requires Applies(db, w)
    ensures About(Rows(db, w, now), key) <= 1
  {
    match w
    case UpdateMessage(id, m) => MessageUpdateAtMostOneRow(db.lists, id, db.messages[id], m, now, key);
    case InsertListEntry(_, _) => AboutAtMostLength(Rows(db, w, now), key);
    case UpdateListEntry(_, _) => AboutAtMostLength(Rows(db, w, now), key);
    case _ =>
      AboutForeign(Rows(db, w, now), key);
  }
}
