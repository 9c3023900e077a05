/** The outgoing email queue: one table, changed by conditional UPDATE and DELETE statements. */
module EmailQueue {
  import opened Sql

  datatype Status = Pending | Processing | Failed | Paused

  datatype Source = Source(kind: string, id: string)

  datatype Row = Row(
    source: Source, integration: string, email: string, status: Status, attempts: int, maxAttempts: int,
    nextRetry: Option<int>, lastError: Option<string>, processedAt: Option<int>, updatedAt: int)

  type Table = map<string, Row>

  const STUCK_SECONDS := 120
  const DAY_SECONDS := 86400

  /** The operations of the repository that write. Clocks are the `now` of each step. */
  datatype Op =
    | Enqueue(entries: map<string, Row>)
    | MarkAsProcessing(id: string)
    | MarkAsSent(id: string)
    | MarkAsFailed(id: string, error: string, nextRetry: Option<int>)
    | MarkAsPermanentlyFailed(id: string, error: string)
    | SetNextRetry(id: string, at: int)
    | ResetTerminallyFailed(source: Source, integration: string)
    | DeleteTerminallyFailed(days: int)
    | PauseBySource(source: Source)
    | ResumeBySource(source: Source)
    | DeleteBySource(source: Source)
    | DeleteForEmail(email: string)
    | Delete(id: string)

  predicate GivenUp(row: Row) { row.status.Failed? && row.nextRetry.None? }

  predicate Stuck(row: Row, now: int) { row.status.Processing? && row.updatedAt < now - STUCK_SECONDS }

  /** The WHERE clause. */
  predicate Selects(op: Op, id: string, row: Row, now: int) {
    match op
    case Enqueue(_) => false
    case MarkAsProcessing(i) => id == i && (row.status.Pending? || row.status.Failed? || Stuck(row, now))
    case MarkAsSent(i) => id == i
    case MarkAsFailed(i, _, _) => id == i
    case MarkAsPermanentlyFailed(i, _) => id == i
    case SetNextRetry(i, _) => id == i && !row.status.Paused?
    case ResetTerminallyFailed(s, _) => row.source == s && GivenUp(row)
    case DeleteTerminallyFailed(days) =>
      GivenUp(row) && row.processedAt.Some? && row.processedAt.value < now - days * DAY_SECONDS
    case PauseBySource(s) => row.source == s && (row.status.Pending? || row.status.Failed?) && !GivenUp(row)
    case ResumeBySource(s) => row.source == s && row.status.Paused?
    case DeleteBySource(s) => row.source == s && !row.status.Processing?
    case DeleteForEmail(e) => row.email == e
    case Delete(i) => id == i
  }

  predicate Deletes(op: Op) {
    op.MarkAsSent? || op.DeleteTerminallyFailed? || op.DeleteBySource? || op.DeleteForEmail? || op.Delete?
  }

  /** The SET clause. */
  function Changed(op: Op, row: Row, now: int): Row {
    match op
    case MarkAsProcessing(_) => row.(status := Processing, attempts := row.attempts + 1, updatedAt := now)
    case MarkAsFailed(_, error, retry) =>
      row.(status := Failed, lastError := Some(error), nextRetry := retry, updatedAt := now)
    case MarkAsPermanentlyFailed(_, error) =>
      row.(status := Failed, lastError := Some(error), nextRetry := None, processedAt := Some(now), updatedAt := now)
    case SetNextRetry(_, at) => row.(status := Pending, nextRetry := Some(at), updatedAt := now)
    case ResetTerminallyFailed(_, integration) =>
      row.(status := Pending, attempts := 0, nextRetry := None, lastError := None, processedAt := None,
           integration := integration, updatedAt := now)
    case PauseBySource(_) => row.(status := Paused, updatedAt := now)
    case ResumeBySource(_) => row.(status := Pending, nextRetry := None, updatedAt := now)
    case _ => row
  }

  /** What the INSERT makes of an entry; a zero `max_attempts` becomes three. */
  function Inserted(row: Row, now: int): Row {
    row.(maxAttempts := if row.maxAttempts == 0 then 3 else row.maxAttempts,
         nextRetry := None, lastError := None, processedAt := None, updatedAt := now)
  }

  /** A batch with an id that is taken inserts nothing. */
  predicate Inserts(t: Table, op: Op) {
    op.Enqueue? && op.entries.Keys !! t.Keys
  }

  function Hit(t: Table, op: Op, now: int): set<string> { set id | id in t && Selects(op, id, t[id], now) }

  function Step(t: Table, op: Op, now: int): Table {
    if Inserts(t, op) then t + map id | id in op.entries :: Inserted(op.entries[id], now)
    else if Deletes(op) then t - Hit(t, op, now)
    else map id | id in t :: if Selects(op, id, t[id], now) then Changed(op, t[id], now) else t[id]
  }

  datatype Timed = Timed(op: Op, now: int)

  function Run(t: Table, ops: seq<Timed>): Table
    decreases |ops|
  {
    if ops == [] then t else Run(Step(t, ops[0].op, ops[0].now), ops[1..])
  }

  /** The WHERE clause of `FetchPending`. */
  predicate Fetchable(row: Row, now: int) {
    || (row.status.Pending? && row.attempts < row.maxAttempts && (row.nextRetry.None? || row.nextRetry.value <= now))
    || (row.status.Failed? && row.attempts < row.maxAttempts && row.nextRetry.Some? && row.nextRetry.value <= now)
    || Stuck(row, now)
  }

  // ---- the table as an object ------------------------------------------------------------------

  class EmailQueueRepository {
    var rows: Table

    constructor ()
      ensures rows == map[]
    {
      rows := map[];
    }

    /** One INSERT for the whole batch. */
    method EnqueueTx(entries: map<string, Row>, now: int) returns (ok: bool)
      modifies this
      ensures ok == Inserts(old(rows), Enqueue(entries))
      ensures rows == Step(old(rows), Enqueue(entries), now)
      ensures ok == forall id :: id in entries ==> id !in old(rows)
      ensures !ok ==> rows == old(rows)
      ensures ok ==> rows.Keys == old(rows.Keys) + entries.Keys && forall id :: id in rows ==>
        rows[id] ==
          if id !in entries then old(rows)[id]
          else entries[id].(maxAttempts := if entries[id].maxAttempts == 0 then 3 else entries[id].maxAttempts,
                            nextRetry := None, lastError := None, processedAt := None, updatedAt := now)
    {
      ok := entries.Keys !! rows.Keys;
      if ok {
        rows := rows + map id | id in entries :: Inserted(entries[id], now);
      }
    }

    /** Fails when no row was affected: somebody else has the entry, or it is gone. */
    method MarkAsProcessing(id: string, now: int) returns (ok: bool)
      modifies this
      ensures ok == (id in old(rows) && Selects(Op.MarkAsProcessing(id), id, old(rows)[id], now))
      ensures rows == Step(old(rows), Op.MarkAsProcessing(id), now)
      ensures ok <==> id in old(rows) && (old(rows)[id].status in {Pending, Failed}
                                          || (old(rows)[id].status == Processing && old(rows)[id].updatedAt + 120 < now))
      ensures rows == if ok then old(rows)[id := old(rows)[id].(status := Processing, attempts := old(rows)[id].attempts + 1, updatedAt := now)]
                      else old(rows)
    {
      ok := id in rows && (rows[id].status == Pending || rows[id].status == Failed || Stuck(rows[id], now));
      if ok {
        var row := rows[id];
        rows := rows[id := row.(status := Processing, updatedAt := now, attempts := row.attempts + 1)];
      }
    }

    method MarkAsSent(id: string, now: int)
      modifies this
      ensures rows == Step(old(rows), Op.MarkAsSent(id), now) == old(rows) - {id}
    {
      rows := rows - {id};
    }

    method MarkAsFailed(id: string, error: string, nextRetry: Option<int>, now: int)
      modifies this
      ensures rows == Step(old(rows), Op.MarkAsFailed(id, error, nextRetry), now)
      ensures rows == if id in old(rows)
        then old(rows)[id := old(rows)[id].(status := Failed, lastError := Some(error), nextRetry := nextRetry, updatedAt := now)]
        else old(rows)
    {
      if id in rows {
        rows := rows[id := rows[id].(status := Failed, updatedAt := now, lastError := Some(error), nextRetry := nextRetry)];
      }
    }

    method MarkAsPermanentlyFailed(id: string, error: string, now: int)
      modifies this
      ensures rows == Step(old(rows), Op.MarkAsPermanentlyFailed(id, error), now)
      ensures rows == if id in old(rows)
        then old(rows)[id := old(rows)[id].(status := Failed, lastError := Some(error), nextRetry := None,
                                            processedAt := Some(now), updatedAt := now)]
        else old(rows)
    {
      if id in rows {
        rows := rows[id := rows[id].(status := Failed, lastError := Some(error), nextRetry := None,
                                     processedAt := Some(now), updatedAt := now)];
      }
    }

    method SetNextRetry(id: string, at: int, now: int)
      modifies this
      ensures rows == Step(old(rows), Op.SetNextRetry(id, at), now)
      ensures rows == if id in old(rows) && old(rows)[id].status != Paused
        then old(rows)[id := old(rows)[id].(status := Pending, nextRetry := Some(at), updatedAt := now)] else old(rows)
    {
      if id in rows && rows[id].status != Paused {
        rows := rows[id := rows[id].(nextRetry := Some(at), status := Pending, updatedAt := now)];
      }
    }

    /** Back into the queue with a new budget of attempts, bound to the integration in use now. */
    method ResetTerminallyFailedBySource(source: Source, integration: string, now: int) returns (affected: nat)
      modifies this
      ensures rows == Step(old(rows), ResetTerminallyFailed(source, integration), now)
      ensures affected == |Hit(old(rows), ResetTerminallyFailed(source, integration), now)|
      ensures rows.Keys == old(rows.Keys) && affected == |set id | id in rows && rows[id] != old(rows)[id]|
      ensures forall id :: id in rows ==> var row := old(rows)[id];
        rows[id] ==
          if row.source == source && row.status == Failed && row.nextRetry == None
          then row.(status := Pending, attempts := 0, nextRetry := None, lastError := None, processedAt := None,
                    integration := integration, updatedAt := now)
          else row
    {
      var hit := set id | id in rows && rows[id].source == source && rows[id].status == Failed && rows[id].nextRetry == None;
      rows := map id | id in rows ::
        if id in hit
        then rows[id].(status := Pending, attempts := 0, nextRetry := None, lastError := None, processedAt := None,
                       integration := integration, updatedAt := now)
        else rows[id];
      affected := |hit|;
      assert hit == Hit(old(rows), ResetTerminallyFailed(source, integration), now);
      assert hit == set id | id in rows && rows[id] != old(rows)[id];
    }

    /** The retention sweep. */
    method DeleteTerminallyFailedOlderThan(days: int, now: int) returns (affected: nat)
      modifies this
      ensures rows == Step(old(rows), DeleteTerminallyFailed(days), now)
      ensures affected == |Hit(old(rows), DeleteTerminallyFailed(days), now)|
      ensures affected == |old(rows).Keys - rows.Keys| && forall id :: id in rows ==> id in old(rows) && rows[id] == old(rows)[id]
      ensures forall id :: id in old(rows) ==> var row := old(rows)[id];
        id !in rows <==> row.status == Failed && row.nextRetry == None
                         && row.processedAt.Some? && row.processedAt.value + days * 86400 < now
    {
      var hit := set id | id in rows && rows[id].status == Failed && rows[id].nextRetry == None
                     && rows[id].processedAt.Some? && rows[id].processedAt.value < now - days * DAY_SECONDS;
      rows := rows - hit;
      affected := |hit|;
      assert hit == Hit(old(rows), DeleteTerminallyFailed(days), now);
      assert hit == old(rows).Keys - rows.Keys;
    }

    method PauseBySource(source: Source, now: int) returns (affected: nat)
      modifies this
      ensures rows == Step(old(rows), Op.PauseBySource(source), now)
      ensures affected == |Hit(old(rows), Op.PauseBySource(source), now)|
      ensures rows.Keys == old(rows.Keys) && affected == |set id | id in rows && rows[id] != old(rows)[id]|
      ensures forall id :: id in rows ==> var row := old(rows)[id];
        rows[id] ==
          if row.source == source && (row.status == Pending || (row.status == Failed && row.nextRetry != None))
          then row.(status := Paused, updatedAt := now) else row
    {
      var hit := set id | id in rows && rows[id].source == source && rows[id].status in {Pending, Failed}
                     && !(rows[id].status == Failed && rows[id].nextRetry == None);
      rows := map id | id in rows :: if id in hit then rows[id].(status := Paused, updatedAt := now) else rows[id];
      affected := |hit|;
      assert hit == Hit(old(rows), Op.PauseBySource(source), now);
      assert hit == set id | id in rows && rows[id] != old(rows)[id];
    }

    method ResumeBySource(source: Source, now: int) returns (affected: nat)
      modifies this
      ensures rows == Step(old(rows), Op.ResumeBySource(source), now)
      ensures affected == |Hit(old(rows), Op.ResumeBySource(source), now)|
      ensures rows.Keys == old(rows.Keys) && affected == |set id | id in rows && rows[id] != old(rows)[id]|
      ensures forall id :: id in rows ==> var row := old(rows)[id];
        rows[id] ==
          if row.source == source && row.status == Paused
          then row.(status := Pending, nextRetry := None, updatedAt := now) else row
    {
      var hit := set id | id in rows && rows[id].source == source && rows[id].status == Paused;
      rows := map id | id in rows ::
        if id in hit then rows[id].(status := Pending, nextRetry := None, updatedAt := now) else rows[id];
      affected := |hit|;
      assert hit == Hit(old(rows), Op.ResumeBySource(source), now);
      assert hit == set id | id in rows && rows[id] != old(rows)[id];
    }

    /** Entries being sent are left to resolve themselves. */
    method DeleteBySource(source: Source, now: int) returns (affected: nat)
      modifies this
      ensures rows == Step(old(rows), Op.DeleteBySource(source), now)
      ensures affected == |Hit(old(rows), Op.DeleteBySource(source), now)|
      ensures affected == |old(rows).Keys - rows.Keys| && forall id :: id in rows ==> id in old(rows) && rows[id] == old(rows)[id]
      ensures forall id :: id in old(rows) ==> (id in rows <==> old(rows)[id].source != source || old(rows)[id].status == Processing)
    {
      var hit := set id | id in rows && rows[id].source == source && rows[id].status in {Pending, Failed, Paused};
      rows := rows - hit;
      affected := |hit|;
      assert hit == Hit(old(rows), Op.DeleteBySource(source), now);
      assert hit == old(rows).Keys - rows.Keys;
    }

    /** Entries being sent go as well: a dead worker's entry would be picked up again. */
    method DeleteForEmail(email: string, now: int) returns (affected: nat)
      modifies this
      ensures rows == Step(old(rows), Op.DeleteForEmail(email), now)
      ensures affected == |Hit(old(rows), Op.DeleteForEmail(email), now)|
      ensures affected == |old(rows).Keys - rows.Keys| && forall id :: id in rows ==> id in old(rows) && rows[id] == old(rows)[id]
      ensures forall id :: id in old(rows) ==> (id in rows <==> old(rows)[id].email != email)
    {
      var hit := set id | id in rows && rows[id].email == email;
      rows := rows - hit;
      affected := |hit|;
      assert hit == Hit(old(rows), Op.DeleteForEmail(email), now);
      assert hit == old(rows).Keys - rows.Keys;
    }
  }
}
