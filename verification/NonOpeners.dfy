/** The "did not open" segment of a broadcast, evaluated over the timeline the triggers write. */
module NonOpeners {
  import opened Sql
  import opened Timeline
  import opened Triggers
  import opened Workspace

  datatype CountOperator = AtLeast | AtMost | Exactly

  /** A `contact_timeline` leaf with the `anytime` timeframe. */
  datatype TimelineCondition = TimelineCondition(kind: string, operator: CountOperator, value: nat, broadcastId: string)

  datatype BranchOperator = And | Or
  datatype TreeNode = Branch(operator: BranchOperator, leaves: seq<TreeNode>) | Leaf(condition: TimelineCondition)

  function TimelineCountLeaf(kind: string, broadcastId: string, operator: CountOperator, count: nat): TreeNode {
    Leaf(TimelineCondition(kind, operator, count, broadcastId))
  }

  function NonOpenersSegmentTree(broadcastId: string): TreeNode {
    Branch(And, [
      TimelineCountLeaf("email.sent", broadcastId, AtLeast, 1),
      TimelineCountLeaf("email.opened", broadcastId, AtMost, 0)])
  }

  // ---- evaluation, as the query builder compiles it ----------------------------------------

  /** `entity_id IN (SELECT id FROM message_history WHERE broadcast_id = ..)`, skipped when the id is empty. */
  predicate InScope(messages: map<string, Message>, entityId: Option<string>, broadcastId: string) {
    broadcastId == "" ||
    (entityId.Some? && entityId.value in messages && messages[entityId.value].broadcastId == Some(broadcastId))
  }

  predicate Selects(messages: map<string, Message>, c: TimelineCondition, email: string, row: TimelineRow) {
    row.email == email && KindText(row.kind) == c.kind && InScope(messages, row.entityId, c.broadcastId)
  }

  function Count(messages: map<string, Message>, c: TimelineCondition, email: string, rows: seq<TimelineRow>): nat {
    if rows == [] then 0
    else (if Selects(messages, c, email, rows[0]) then 1 else 0) + Count(messages, c, email, rows[1..])
  }

  predicate Compares(operator: CountOperator, count: nat, value: nat) {
    match operator
    case AtLeast => count >= value
    case AtMost => count <= value
    case Exactly => count == value
  }

  predicate Satisfies(db: Db, email: string, node: TreeNode) {
    match node
    case Leaf(c) => Compares(c.operator, Count(db.messages, c, email, db.timeline), c.value)
    case Branch(And, leaves) => forall n :: n in leaves ==> Satisfies(db, email, n)
    case Branch(Or, leaves) => exists n :: n in leaves && Satisfies(db, email, n)
  }

  lemma {:induction false} CountPositive(messages: map<string, Message>, c: TimelineCondition, email: string, rows: seq<TimelineRow>)
    ensures Count(messages, c, email, rows) >= 1 <==> exists r :: r in rows && Selects(messages, c, email, r)
  {
    if rows != [] {
      CountPositive(messages, c, email, rows[1..]);
      assert forall r :: r in rows <==> r == rows[0] || r in rows[1..];
    }
  }

  // ---- the timeline as an index of message_history ----------------------------------------

  predicate IsEmailRow(row: TimelineRow, event: MessageEvent, id: string, m: Message) {
    row.kind == MessageKind("email", event) && row.entityId == Some(id) && row.email == m.email
  }

  /** The row is about a stored email message sent to the row's address. */
  predicate Backed(messages: map<string, Message>, r: TimelineRow) {
    r.entityId.Some? && r.entityId.value in messages
    && messages[r.entityId.value].channel == "email" && messages[r.entityId.value].email == r.email
  }

  predicate SoundRow(messages: map<string, Message>, r: TimelineRow) {
    && (r.kind == MessageKind("email", Sent) ==> Backed(messages, r))
    && (r.kind == MessageKind("email", Opened) ==>
          Backed(messages, r) && messages[r.entityId.value].openedAt.Some?)
  }

  /** Sent and opened rows are about stored email messages, opened ones for `Opened`. */
  ghost predicate Sound(messages: map<string, Message>, rows: seq<TimelineRow>) {
    forall r :: r in rows ==> SoundRow(messages, r)
  }

  ghost predicate HasRow(rows: seq<TimelineRow>, event: MessageEvent, id: string, m: Message) {
    exists r :: r in rows && IsEmailRow(r, event, id, m)
  }

  /** Every email message has its sent row, every opened one an opened row. */
  ghost predicate Complete(messages: map<string, Message>, rows: seq<TimelineRow>) {
    forall id :: id in messages && messages[id].channel == "email" ==>
      && HasRow(rows, Sent, id, messages[id])
      && (messages[id].openedAt.Some? ==> HasRow(rows, Opened, id, messages[id]))
  }

  ghost predicate Indexed(db: Db) {
    Sound(db.messages, db.timeline) && Complete(db.messages, db.timeline)
  }

  predicate SentTo(m: Message, email: string, broadcastId: string) {
    m.email == email && m.channel == "email" && (broadcastId == "" || m.broadcastId == Some(broadcastId))
  }

  /** A leaf selects a row exactly when some message it is about is in scope. */
  lemma SelectedRows(db: Db, event: MessageEvent, c: TimelineCondition, email: string)
    requires Indexed(db) && (event.Sent? || event.Opened?) && c.kind == "email" + EventSuffix(event)
    ensures (exists r :: r in db.timeline && Selects(db.messages, c, email, r)) <==>
            (exists id :: id in db.messages && SentTo(db.messages[id], email, c.broadcastId)
                          && (event.Opened? ==> db.messages[id].openedAt.Some?))
  {
    if r :| r in db.timeline && Selects(db.messages, c, email, r) {
      EmailKindText(r.kind, event);
      assert SoundRow(db.messages, r);
      assert SentTo(db.messages[r.entityId.value], email, c.broadcastId);
    }
    if id :| id in db.messages && SentTo(db.messages[id], email, c.broadcastId)
             && (event.Opened? ==> db.messages[id].openedAt.Some?) {
      assert HasRow(db.timeline, event, id, db.messages[id]);
      var r :| r in db.timeline && IsEmailRow(r, event, id, db.messages[id]);
      EmailKindText(r.kind, event);
      assert Selects(db.messages, c, email, r);
    }
  }

  /** The two leaves, joined by `and`. */
  lemma TreeUnfolds(db: Db, email: string, b: string)
    ensures Satisfies(db, email, NonOpenersSegmentTree(b)) <==>
      Satisfies(db, email, TimelineCountLeaf("email.sent", b, AtLeast, 1))
      && Satisfies(db, email, TimelineCountLeaf("email.opened", b, AtMost, 0))
  {
    var tree := NonOpenersSegmentTree(b);
    var sent, unopened := TimelineCountLeaf("email.sent", b, AtLeast, 1), TimelineCountLeaf("email.opened", b, AtMost, 0);
    assert tree.leaves == [sent, unopened] && tree.leaves[0] == sent && tree.leaves[1] == unopened;
    assert Satisfies(db, email, tree) <==> forall n :: n in tree.leaves ==> Satisfies(db, email, n);
    assert sent in tree.leaves && unopened in tree.leaves;
    assert forall n :: n in tree.leaves ==> n == sent || n == unopened;
  }

  /** Over an indexed database the tree means: was sent the broadcast by email, and opened none of its messages. */
  lemma TreeMeansNonOpener(db: Db, email: string, b: string)
    requires Indexed(db)
    ensures Satisfies(db, email, NonOpenersSegmentTree(b)) <==>
      && (exists id :: id in db.messages && SentTo(db.messages[id], email, b))
      && (forall id :: id in db.messages && SentTo(db.messages[id], email, b) ==> db.messages[id].openedAt.None?)
  {
    var sent := TimelineCondition("email.sent", AtLeast, 1, b);
    var unopened := TimelineCondition("email.opened", AtMost, 0, b);
    assert "email" + EventSuffix(Sent) == "email.sent" && "email" + EventSuffix(Opened) == "email.opened";
    TreeUnfolds(db, email, b);
    assert Satisfies(db, email, Leaf(sent)) <==> Count(db.messages, sent, email, db.timeline) >= 1;
    assert Satisfies(db, email, Leaf(unopened)) <==> Count(db.messages, unopened, email, db.timeline) < 1;
    CountPositive(db.messages, sent, email, db.timeline);
    CountPositive(db.messages, unopened, email, db.timeline);
    SelectedRows(db, Sent, sent, email);
    SelectedRows(db, Opened, unopened, email);
  }

  // ---- which statements keep it an index ----------------------------------------------------

  /** Insert unopened; keep address and channel of email messages; never take an open back. */
  predicate Orderly(db: Db, w: Write) {
    match w
    case InsertMessage(id, m) => id !in db.messages && m.channel == "email" ==> m.openedAt.None?
    case UpdateMessage(id, m) =>
      id in db.messages && (db.messages[id].channel == "email" || m.channel == "email") ==>
        var before := db.messages[id];
        before.channel == m.channel && before.email == m.email && (before.openedAt.Some? ==> m.openedAt.Some?)
    case _ => true
  }

  lemma GrowIndex(messages: map<string, Message>, rows: seq<TimelineRow>, more: seq<TimelineRow>)
    requires Sound(messages, rows) && Complete(messages, rows)
    requires forall r :: r in more ==> !r.kind.MessageKind?
    ensures Sound(messages, rows + more) && Complete(messages, rows + more)
  {
    forall id | id in messages && messages[id].channel == "email"
      ensures HasRow(rows + more, Sent, id, messages[id])
      ensures messages[id].openedAt.Some? ==> HasRow(rows + more, Opened, id, messages[id])
    {
      RowSurvives(rows, more, Sent, id, messages[id]);
      if messages[id].openedAt.Some? {
        RowSurvives(rows, more, Opened, id, messages[id]);
      }
    }
  }

  lemma RowSurvives(rows: seq<TimelineRow>, more: seq<TimelineRow>, event: MessageEvent, id: string, m: Message)
    requires HasRow(rows, event, id, m)
    ensures HasRow(rows + more, event, id, m)
  {
    var r :| r in rows && IsEmailRow(r, event, id, m);
    assert r in rows + more;
  }

  lemma InsertKeepsIndex(messages: map<string, Message>, rows: seq<TimelineRow>, id: string, m: Message)
    requires Sound(messages, rows) && Complete(messages, rows) && id !in messages
    requires m.channel == "email" ==> m.openedAt.None?
    ensures Sound(messages[id := m], rows + MessageInsertRows(id, m))
    ensures Complete(messages[id := m], rows + MessageInsertRows(id, m))
  {
    var more, messages' := MessageInsertRows(id, m), messages[id := m];
    assert IsEmailRow(more[0], Sent, id, m) <==> m.channel == "email";
    forall r | r in rows + more ensures SoundRow(messages', r) {
      assert r in rows ==> SoundRow(messages, r);
    }
    forall i | i in messages' && messages'[i].channel == "email"
      ensures HasRow(rows + more, Sent, i, messages'[i])
      ensures messages'[i].openedAt.Some? ==> HasRow(rows + more, Opened, i, messages'[i])
    {
      if i == id {
        assert more[0] in rows + more;
      } else {
        RowSurvives(rows, more, Sent, i, messages[i]);
        if messages[i].openedAt.Some? {
          RowSurvives(rows, more, Opened, i, messages[i]);
        }
      }
    }
  }

  /** A row an update of message `id` to `m` may write. */
  predicate IsUpdateRow(r: TimelineRow, id: string, m: Message) {
    && r.kind.MessageKind? && r.kind.channel == m.channel && r.kind.event != Sent
    && r.entityId == Some(id) && r.email == m.email
    && (r.kind.event == Opened ==> m.openedAt.Some?)
  }

  predicate AllUpdateRows(rows: seq<TimelineRow>, id: string, m: Message) { forall r :: r in rows ==> IsUpdateRow(r, id, m) }

  lemma StampRow(id: string, m: Message, event: MessageEvent, key: Key, before: Option<int>, after: Option<int>)
    requires event != Sent && (event == Opened ==> after == m.openedAt)
    ensures AllUpdateRows(StampRows(id, m, event, key, before, after), id, m)
  {
  }

  lemma UpdateRowsConcat(a: seq<TimelineRow>, b: seq<TimelineRow>, id: string, m: Message)
    requires AllUpdateRows(a, id, m) && AllUpdateRows(b, id, m)
    ensures AllUpdateRows(a + b, id, m)
  {
  }

  /** The message rows of an update, by kind: no sent row, an opened row exactly when `opened_at` moved to a value. */
  lemma UpdateMessageRows(id: string, before: Message, after: Message)
    ensures AllUpdateRows(MessageUpdateRows(id, before, after), id, after)
    ensures before.openedAt != after.openedAt && after.openedAt.Some? ==>
      exists r :: r in MessageUpdateRows(id, before, after) && r.kind == MessageKind(after.channel, Opened)
  {
    var o := StampRows(id, after, MessageEvent.Opened, OpenedAt, before.openedAt, after.openedAt);
    var c := StampRows(id, after, MessageEvent.Clicked, ClickedAt, before.clickedAt, after.clickedAt);
    var b := StampRows(id, after, MessageEvent.Bounced, BouncedAt, before.bouncedAt, after.bouncedAt);
    var p := StampRows(id, after, MessageEvent.Complained, ComplainedAt, before.complainedAt, after.complainedAt);
    var u := StampRows(id, after, MessageEvent.Unsubscribed, UnsubscribedAt, before.unsubscribedAt, after.unsubscribedAt);
    var diff := GenericDiff(before, after);
    var g := if diff == map[] then [] else [MessageRow(id, after, Update, Updated, diff)];
    StampRow(id, after, MessageEvent.Opened, OpenedAt, before.openedAt, after.openedAt);
    StampRow(id, after, MessageEvent.Clicked, ClickedAt, before.clickedAt, after.clickedAt);
    StampRow(id, after, MessageEvent.Bounced, BouncedAt, before.bouncedAt, after.bouncedAt);
    StampRow(id, after, MessageEvent.Complained, ComplainedAt, before.complainedAt, after.complainedAt);
    StampRow(id, after, MessageEvent.Unsubscribed, UnsubscribedAt, before.unsubscribedAt, after.unsubscribedAt);
    UpdateRowsConcat(o, c, id, after);
    UpdateRowsConcat(o + c, b, id, after);
    UpdateRowsConcat(o + c + b, p, id, after);
    UpdateRowsConcat(o + c + b + p, u, id, after);
    UpdateRowsConcat(o + c + b + p + u, g, id, after);
    if before.openedAt != after.openedAt && after.openedAt.Some? {
      assert (o + c + b + p + u + g)[0] == o[0] && o[0].kind == MessageKind(after.channel, Opened);
    }
  }

  lemma UpdateKeepsIndex(messages: map<string, Message>, rows: seq<TimelineRow>, id: string, m: Message)
    requires Sound(messages, rows) && Complete(messages, rows) && id in messages
    requires messages[id].channel == "email" || m.channel == "email" ==>
      messages[id].channel == m.channel && messages[id].email == m.email && (messages[id].openedAt.Some? ==> m.openedAt.Some?)
    ensures Sound(messages[id := m], rows + MessageUpdateRows(id, messages[id], m))
    ensures Complete(messages[id := m], rows + MessageUpdateRows(id, messages[id], m))
  {
    var before, more, messages' := messages[id], MessageUpdateRows(id, messages[id], m), messages[id := m];
    UpdateMessageRows(id, before, m);
    forall r | r in rows + more ensures SoundRow(messages', r) {
      assert r in rows ==> SoundRow(messages, r);
    }
    forall i | i in messages' && messages'[i].channel == "email"
      ensures HasRow(rows + more, Sent, i, messages'[i])
      ensures messages'[i].openedAt.Some? ==> HasRow(rows + more, Opened, i, messages'[i])
    {
      RowSurvives(rows, more, Sent, i, messages[i]);
      var s :| s in rows + more && IsEmailRow(s, Sent, i, messages[i]);
      assert IsEmailRow(s, Sent, i, messages'[i]);
      if messages'[i].openedAt.Some? {
        if i == id && before.openedAt != m.openedAt {
          var r :| r in more && r.kind == MessageKind(m.channel, Opened);
          assert r in rows + more && IsEmailRow(r, Opened, i, messages'[i]);
        } else {
          RowSurvives(rows, more, Opened, i, messages[i]);
          var r :| r in rows + more && IsEmailRow(r, Opened, i, messages[i]);
          assert IsEmailRow(r, Opened, i, messages'[i]);
        }
      }
    }
  }

  /** A message update with its pushes: the pushed rows are list rows. */
  lemma MessageUpdateKeepsIndex(db: Db, id: string, m: Message, now: int)
    requires Indexed(db) && id in db.messages && Orderly(db, UpdateMessage(id, m))
    ensures var rows := db.timeline + Rows(db, UpdateMessage(id, m), now);
      Sound(db.messages[id := m], rows) && Complete(db.messages[id := m], rows)
  {
    var before := db.messages[id];
    var mid := AfterComplaint(db.lists, before, m);
    var ms, cs, bs := MessageUpdateRows(id, before, m), ComplaintRows(db.lists, before, m, now), BounceRows(mid, before, m, now);
    UpdateKeepsIndex(db.messages, db.timeline, id, m);
    GrowIndex(db.messages[id := m], db.timeline + ms, cs + bs);
    assert db.timeline + ms + (cs + bs) == db.timeline + (ms + cs + bs);
  }

  lemma OrderlyKeepsIndex(db: Db, w: Write, now: int)
    requires Indexed(db) && Applies(db, w) && Orderly(db, w)
    ensures Sound(Tables(db, w).messages, db.timeline + Rows(db, w, now))
    ensures Complete(Tables(db, w).messages, db.timeline + Rows(db, w, now))
  {
    match w
    case InsertMessage(id, m) => InsertKeepsIndex(db.messages, db.timeline, id, m);
    case UpdateMessage(id, m) => MessageUpdateKeepsIndex(db, id, m, now);
    case _ =>
      GrowIndex(db.messages, db.timeline, Rows(db, w, now));
  }

  lemma DisorderlyInsert(db: Db, id: string, m: Message, now: int)
    requires Indexed(db) && id !in db.messages && !Orderly(db, InsertMessage(id, m))
    ensures !Complete(db.messages[id := m], db.timeline + MessageInsertRows(id, m))
  {
    var rows := db.timeline + MessageInsertRows(id, m);
    assert db.messages[id := m][id] == m && m.channel == "email" && m.openedAt.Some?;
    forall r | r in rows ensures !IsEmailRow(r, Opened, id, m) {
      assert r in db.timeline ==> SoundRow(db.messages, r);
    }
  }

  lemma UpdateWritesNoSentRow(db: Db, id: string, m: Message, now: int)
    requires id in db.messages
    ensures forall r :: r in Rows(db, UpdateMessage(id, m), now) ==> IsUpdateRow(r, id, m) || !r.kind.MessageKind?
  {
    var before := db.messages[id];
    var mid := AfterComplaint(db.lists, before, m);
    var ms, cs, bs := MessageUpdateRows(id, before, m), ComplaintRows(db.lists, before, m, now), BounceRows(mid, before, m, now);
    UpdateMessageRows(id, before, m);
    assert Rows(db, UpdateMessage(id, m), now) == ms + cs + bs;
  }

  /** Sent rows of the new timeline about a message that was already stored are old ones. */
  lemma DisorderlyUpdate(db: Db, id: string, m: Message, now: int)
    requires Indexed(db) && id in db.messages && !Orderly(db, UpdateMessage(id, m))
    ensures var rows := db.timeline + Rows(db, UpdateMessage(id, m), now);
      !(Sound(db.messages[id := m], rows) && Complete(db.messages[id := m], rows))
  {
    var messages', rows, before := db.messages[id := m], db.timeline + Rows(db, UpdateMessage(id, m), now), db.messages[id];
    UpdateWritesNoSentRow(db, id, m, now);
    assert messages'[id] == m;
    if before.channel != "email" {
      forall r | r in rows ensures !IsEmailRow(r, Sent, id, m) {
        assert r in db.timeline ==> SoundRow(db.messages, r);
      }
    } else {
      assert HasRow(db.timeline, Sent, id, before);
      var s :| s in db.timeline && IsEmailRow(s, Sent, id, before);
      assert s in rows;
      if m.channel == "email" && m.email == before.email {
        assert HasRow(db.timeline, Opened, id, before);
        var r :| r in db.timeline && IsEmailRow(r, Opened, id, before);
        assert r in rows;
      }
    }
  }

  lemma DisorderBreaksIndex(db: Db, w: Write, now: int)
    requires Indexed(db) && Applies(db, w) && !Orderly(db, w)
    ensures !(Sound(Tables(db, w).messages, db.timeline + Rows(db, w, now))
              && Complete(Tables(db, w).messages, db.timeline + Rows(db, w, now)))
  {
    if w.InsertMessage? {
      DisorderlyInsert(db, w.id, w.message, now);
    } else {
      DisorderlyUpdate(db, w.id, w.message, now);
    }
  }

  /** From an indexed database, a write keeps the timeline an index exactly when it is orderly. */
  lemma StepKeepsIndex(db: Db, s: Stamped)
    requires Indexed(db)
    ensures Indexed(Step(db, s)) <==> !Applies(db, s.write) || Orderly(db, s.write)
  {
    if Applies(db, s.write) {
      StepAppends(db, s);
      StepProjects(db, s);
      if Orderly(db, s.write) {
        OrderlyKeepsIndex(db, s.write, s.now);
      } else {
        DisorderBreaksIndex(db, s.write, s.now);
      }
    }
  }

  predicate OrderlyRun(db: Db, ws: seq<Stamped>)
    decreases |ws|
  {
    ws == [] || ((Applies(db, ws[0].write) ==> Orderly(db, ws[0].write)) && OrderlyRun(Step(db, ws[0]), ws[1..]))
  }

  lemma {:induction false} OrderlyRunKeepsIndex(db: Db, ws: seq<Stamped>)
    requires Indexed(db) && OrderlyRun(db, ws)
    ensures Indexed(Run(db, ws))
    decreases |ws|
  {
    if ws != [] {
      StepKeepsIndex(db, ws[0]);
      OrderlyRunKeepsIndex(Step(db, ws[0]), ws[1..]);
    }
  }

  /** Over every orderly run from the empty workspace, for every email and broadcast, the segment is the non-openers. */
  lemma NonOpenersOverRuns(ws: seq<Stamped>, email: string, b: string)
    requires OrderlyRun(EMPTY_DB, ws)
    ensures var db := Run(EMPTY_DB, ws);
      Satisfies(db, email, NonOpenersSegmentTree(b)) <==>
      && (exists id :: id in db.messages && SentTo(db.messages[id], email, b))
      && (forall id :: id in db.messages && SentTo(db.messages[id], email, b) ==> db.messages[id].openedAt.None?)
  {
    OrderlyRunKeepsIndex(EMPTY_DB, ws);
    TreeMeansNonOpener(Run(EMPTY_DB, ws), email, b);
  }
}
