/** The `contact` rows of the timeline are an audit log: they replay forwards and backwards over every run. */
module ContactAudit {
  import opened Sql
  import opened Timeline
  import opened Triggers
  import opened Workspace

  /** The columns of a contact as `changes` prints them, nulls left out. */
  function Rendered(c: Contact): map<Column, Json> {
    map k | k in c.columns && c.columns[k] != JNull :: c.columns[k]
  }

  predicate Logs(row: TimelineRow, email: string) {
    row.entity == ContactEntity && row.email == email && row.changes.ColumnChanges? && IsDiff(row.changes.columns)
  }

  function Redo(row: TimelineRow, email: string, state: map<Column, Json>): map<Column, Json> {
    if Logs(row, email) then Apply(row.changes.columns, state) else state
  }

  function Undo(row: TimelineRow, email: string, state: map<Column, Json>): map<Column, Json> {
    if Logs(row, email) then Revert(row.changes.columns, state) else state
  }

  function Replay(rows: seq<TimelineRow>, email: string, state: map<Column, Json>): map<Column, Json>
    decreases |rows|
  {
    if rows == [] then state else Replay(rows[1..], email, Redo(rows[0], email, state))
  }

  function Rewind(rows: seq<TimelineRow>, email: string, state: map<Column, Json>): map<Column, Json>
    decreases |rows|
  {
    if rows == [] then state else Undo(rows[0], email, Rewind(rows[1..], email, state))
  }

  lemma {:induction false} ReplayConcat(a: seq<TimelineRow>, b: seq<TimelineRow>, email: string, state: map<Column, Json>)
    ensures Replay(a + b, email, state) == Replay(b, email, Replay(a, email, state))
    decreases |a|
  {
    if a == [] {
      assert a + b == b;
    } else {
      ReplayConcat(a[1..], b, email, Redo(a[0], email, state));
      assert (a + b)[1..] == a[1..] + b;
    }
  }

  lemma {:induction false} RewindConcat(a: seq<TimelineRow>, b: seq<TimelineRow>, email: string, state: map<Column, Json>)
    ensures Rewind(a + b, email, state) == Rewind(a, email, Rewind(b, email, state))
    decreases |a|
  {
    if a == [] {
      assert a + b == b;
    } else {
      RewindConcat(a[1..], b, email, state);
      assert (a + b)[1..] == a[1..] + b;
    }
  }

  lemma {:induction false} ForeignRowsAreInert(rows: seq<TimelineRow>, email: string, state: map<Column, Json>)
    requires forall r :: r in rows ==> !Logs(r, email)
    ensures Replay(rows, email, state) == state && Rewind(rows, email, state) == state
    decreases |rows|
  {
    if rows != [] {
      assert rows[0] in rows;
      ForeignRowsAreInert(rows[1..], email, state);
    }
  }

  lemma DiffForward(before: Contact, after: Contact)
    ensures Apply(ColumnDiff(before, after), Rendered(before)) == Rendered(after)
  {
    var d := ColumnDiff(before, after);
    forall k ensures k !in d ==> before.Get(k) == after.Get(k) {}
  }

  lemma DiffBackward(before: Contact, after: Contact)
    ensures Revert(ColumnDiff(before, after), Rendered(after)) == Rendered(before)
  {
    var d := ColumnDiff(before, after);
    forall k ensures k !in d ==> before.Get(k) == after.Get(k) {}
  }

  /** One UPDATE on contacts: its row, or its absence, is exactly the difference of the two rows. */
  lemma UpdateReplays(email: string, before: Contact, after: Contact)
    ensures Replay(ContactUpdateRows(email, before, after), email, Rendered(before)) == Rendered(after)
    ensures Rewind(ContactUpdateRows(email, before, after), email, Rendered(after)) == Rendered(before)
  {
    var d := ColumnDiff(before, after);
    EmptyDiff(before, after);
    if d != map[] {
      DiffForward(before, after);
      DiffBackward(before, after);
    }
  }

  /** An update logs nothing exactly when it leaves every logged column as it was. */
  lemma SilentUpdate(email: string, before: Contact, after: Contact)
    ensures ContactUpdateRows(email, before, after) == [] <==> before.columns == after.columns
  {
    EmptyDiff(before, after);
  }

  /** Writes on other tables, and on other contacts, append no row that logs this contact. */
  lemma OtherRowsLogNothing(db: Db, w: Write, now: int, email: string)
    requires Applies(db, w) && !((w.InsertContact? || w.UpdateContact?) && w.email == email)
    ensures forall r :: r in Rows(db, w, now) ==> !Logs(r, email)
  {
    if w.UpdateMessage? {
      MessageUpdateEntities(db, w.id, w.message, now);
    }
  }

  /**
   * The rows appended from `first` to `last` replay the columns the contact had to those it has, and rewind those
   * it has to those it had.
   */
  predicate Exact(first: Db, last: Db, email: string) {
    && email in first.contacts && email in last.contacts && first.timeline <= last.timeline
    && var rows := last.timeline[|first.timeline|..];
    && Replay(rows, email, Rendered(first.contacts[email])) == Rendered(last.contacts[email])
    && Rewind(rows, email, Rendered(last.contacts[email])) == Rendered(first.contacts[email])
  }

  lemma ExactComposes(first: Db, mid: Db, last: Db, email: string)
    requires Exact(first, mid, email) && Exact(mid, last, email)
    ensures Exact(first, last, email)
  {
    var a, b := mid.timeline[|first.timeline|..], last.timeline[|mid.timeline|..];
    assert last.timeline[|first.timeline|..] == a + b;
    ReplayConcat(a, b, email, Rendered(first.contacts[email]));
    RewindConcat(a, b, email, Rendered(last.contacts[email]));
  }

  /** Every write, with its whole cascade, keeps the log exact for a contact that exists. */
  lemma StepReplays(db: Db, s: Stamped, email: string)
    requires email in db.contacts
    ensures Exact(db, Step(db, s), email)
  {
    if Applies(db, s.write) {
      var rows := Rows(db, s.write, s.now);
      StepAppends(db, s);
      StepProjects(db, s);
      if s.write.UpdateContact? && s.write.email == email {
        UpdateReplays(email, db.contacts[email], s.write.contact);
      } else {
        OtherRowsLogNothing(db, s.write, s.now, email);
        ForeignRowsAreInert(rows, email, Rendered(db.contacts[email]));
      }
    } else {
      assert db.timeline[|db.timeline|..] == [];
    }
  }

  /** Over every run of writes on every table the log is exact for every contact there was at its start. */
  lemma {:induction false} AuditLogReplays(db: Db, ws: seq<Stamped>, email: string)
    requires email in db.contacts
    ensures Exact(db, Run(db, ws), email)
    decreases |ws|
  {
    if ws == [] {
      assert db.timeline[|db.timeline|..] == [];
    } else {
      StepReplays(db, ws[0], email);
      AuditLogReplays(Step(db, ws[0]), ws[1..], email);
      ExactComposes(db, Step(db, ws[0]), Run(db, ws), email);
    }
  }

  /** SQL NULL and JSON null print alike: a rendered row determines the columns exactly up to that. */
  lemma RenderedDetermines(a: Contact, b: Contact)
    ensures Rendered(a) == Rendered(b) <==> forall k :: Render(a.Get(k)) == Render(b.Get(k))
  {
    if Rendered(a) == Rendered(b) {
      forall k ensures Render(a.Get(k)) == Render(b.Get(k)) {
        assert k in Rendered(a) <==> k in Rendered(b);
        assert k in Rendered(a) ==> Rendered(a)[k] == Rendered(b)[k];
      }
    }
    if forall k :: Render(a.Get(k)) == Render(b.Get(k)) {
      forall k ensures k in Rendered(a) <==> k in Rendered(b) { assert Render(a.Get(k)) == Render(b.Get(k)); }
      forall k | k in Rendered(a) ensures Rendered(a)[k] == Rendered(b)[k] { assert Render(a.Get(k)) == Render(b.Get(k)); }
    }
  }
}
