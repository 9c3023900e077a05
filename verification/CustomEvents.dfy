/** The `properties` object of a custom-event row is a patch between the two property sets. */
module CustomEvents {
  import opened Sql
  import opened Timeline
  import opened Triggers
  import opened Workspace

  /** Every JSON null among `props` is there in `other` as well. */
  predicate NullsKept(props: map<string, Json>, other: map<string, Json>) {
    forall k :: k in props && props[k] == JNull ==> k in other && other[k] == JNull
  }

  /** The loop over the union of keys records exactly the keys whose values differ. */
  lemma DiffRecordsDifferences(before: map<string, Json>, after: map<string, Json>, k: string)
    ensures k in PropertyDiff(before, after) <==> Prop(before, k) != Prop(after, k)
    ensures k in PropertyDiff(before, after) ==>
      PropertyDiff(before, after)[k] == OldNew(Render(Prop(before, k)), Render(Prop(after, k)))
  {
  }

  /** The recorded diff takes the old properties to the new ones exactly when no JSON null appears. */
  lemma DiffApplies(before: map<string, Json>, after: map<string, Json>)
    ensures Apply(PropertyDiff(before, after), before) == after <==> NullsKept(after, before)
  {
    var got := Apply(PropertyDiff(before, after), before);
    if NullsKept(after, before) {
      forall k ensures Prop(got, k) == Prop(after, k) {}
      SameProps(got, after);
    } else {
      var k :| k in after && after[k] == JNull && !(k in before && before[k] == JNull);
      assert k !in got;
    }
  }

  /** Its inverse takes the new properties back exactly when no JSON null disappears. */
  lemma DiffReverts(before: map<string, Json>, after: map<string, Json>)
    ensures Revert(PropertyDiff(before, after), after) == before <==> NullsKept(before, after)
  {
    var got := Revert(PropertyDiff(before, after), after);
    if NullsKept(before, after) {
      forall k ensures Prop(got, k) == Prop(before, k) {}
      SameProps(got, before);
    } else {
      var k :| k in before && before[k] == JNull && !(k in after && after[k] == JNull);
      assert k !in got;
    }
  }

  lemma SameProps(a: map<string, Json>, b: map<string, Json>)
    requires forall k :: Prop(a, k) == Prop(b, k)
    ensures a == b
  {
    forall k ensures k in a <==> k in b { assert Prop(a, k) == Prop(b, k); }
    forall k | k in a ensures a[k] == b[k] { assert Prop(a, k) == Prop(b, k); }
  }

  // ---- over runs -----------------------------------------------------------------------------

  predicate Patches(row: TimelineRow, key: (string, string)) {
    row.entity == CustomEventEntity && row.kind == CustomEventKind(key.0) && row.entityId == Some(key.1)
    && row.changes.EventChanges? && IsDiff(row.changes.properties)
  }

  function Replay(rows: seq<TimelineRow>, key: (string, string), props: map<string, Json>): map<string, Json>
    decreases |rows|
  {
    if rows == [] then props
    else Replay(rows[1..], key, if Patches(rows[0], key) then Apply(rows[0].changes.properties, props) else props)
  }

  lemma {:induction false} ReplayConcat(a: seq<TimelineRow>, b: seq<TimelineRow>, key: (string, string), props: map<string, Json>)
    ensures Replay(a + b, key, props) == Replay(b, key, Replay(a, key, props))
    decreases |a|
  {
    if a == [] {
      assert a + b == b;
    } else {
      ReplayConcat(a[1..], b, key, if Patches(a[0], key) then Apply(a[0].changes.properties, props) else props);
      assert (a + b)[1..] == a[1..] + b;
    }
  }

  lemma {:induction false} ForeignRowsPatchNothing(rows: seq<TimelineRow>, key: (string, string), props: map<string, Json>)
    requires forall r :: r in rows ==> !Patches(r, key)
    ensures Replay(rows, key, props) == props
    decreases |rows|
  {
    if rows != [] {
      assert rows[0] in rows;
      ForeignRowsPatchNothing(rows[1..], key, props);
    }
  }

  lemma OtherWritesPatchNothing(db: Db, w: Write, now: int, key: (string, string))
    requires Applies(db, w) && key in db.events && !(w.UpdateEvent? && w.key == key)
    ensures forall r :: r in Rows(db, w, now) ==> !Patches(r, key)
    ensures key in Tables(db, w).events && Tables(db, w).events[key] == db.events[key]
  {
    if w.UpdateMessage? {
      MessageUpdateEntities(db, w.id, w.message, now);
    }
  }

  /** A run whose updates of the event never introduce a JSON null. */
  predicate NoNewNulls(db: Db, ws: seq<Stamped>, key: (string, string))
    decreases |ws|
  {
    ws == [] ||
    ((ws[0].write.UpdateEvent? && ws[0].write.key == key && key in db.events ==>
        NullsKept(ws[0].write.event.properties, db.events[key].properties))
     && NoNewNulls(Step(db, ws[0]), ws[1..], key))
  }

  lemma UpdatePatches(key: (string, string), before: CustomEvent, after: CustomEvent)
    requires NullsKept(after.properties, before.properties)
    ensures Replay(EventUpdateRows(key.0, key.1, before, after), key, before.properties) == after.properties
  {
    DiffApplies(before.properties, after.properties);
    var rows := EventUpdateRows(key.0, key.1, before, after);
    assert Patches(rows[0], key) && rows[1..] == [];
  }

  lemma StepPatches(db: Db, s: Stamped, key: (string, string))
    requires key in db.events
    requires s.write.UpdateEvent? && s.write.key == key ==>
      NullsKept(s.write.event.properties, db.events[key].properties)
    ensures key in Step(db, s).events && db.timeline <= Step(db, s).timeline
    ensures Replay(Step(db, s).timeline[|db.timeline|..], key, db.events[key].properties) == Step(db, s).events[key].properties
  {
    if Applies(db, s.write) {
      StepAppends(db, s);
      StepProjects(db, s);
      if s.write.UpdateEvent? && s.write.key == key {
        UpdatePatches(key, db.events[key], s.write.event);
      } else {
        OtherWritesPatchNothing(db, s.write, s.now, key);
        ForeignRowsPatchNothing(Rows(db, s.write, s.now), key, db.events[key].properties);
      }
    }
  }

  /** Over every such run the rows appended since replay to the stored properties. */
  lemma {:induction false} EventLogReplays(db: Db, ws: seq<Stamped>, key: (string, string))
    requires key in db.events && NoNewNulls(db, ws, key)
    ensures key in Run(db, ws).events && db.timeline <= Run(db, ws).timeline
    ensures Replay(Run(db, ws).timeline[|db.timeline|..], key, db.events[key].properties) == Run(db, ws).events[key].properties
    decreases |ws|
  {
    if ws != [] {
      var mid, end := Step(db, ws[0]), Run(db, ws);
      StepPatches(db, ws[0], key);
      EventLogReplays(mid, ws[1..], key);
      var a, b := mid.timeline[|db.timeline|..], end.timeline[|mid.timeline|..];
      assert end.timeline[|db.timeline|..] == a + b;
      ReplayConcat(a, b, key, db.events[key].properties);
    }
  }
}
