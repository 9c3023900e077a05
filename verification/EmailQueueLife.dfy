/** What happens to queued emails over whole runs: conservation, the five counts, and who comes back from giving up. */
module EmailQueueLife {
  import opened Sql
  import opened EmailQueue

  // ---- one row under one statement -------------------------------------------------------------

  lemma StepRow(t: Table, op: Op, now: int, id: string)
    ensures id in Step(t, op, now) <==>
      (id in t && !(Deletes(op) && Selects(op, id, t[id], now))) || (Inserts(t, op) && id in op.entries)
    ensures id in t && id in Step(t, op, now) ==>
      Step(t, op, now)[id] == if Selects(op, id, t[id], now) then Changed(op, t[id], now) else t[id]
    ensures id !in t && id in Step(t, op, now) ==> Inserts(t, op) && Step(t, op, now)[id] == Inserted(op.entries[id], now)
  {
  }

  // ---- conservation ----------------------------------------------------------------------------

  /** The ids a step inserts. */
  function Added(t: Table, op: Op): set<string> { if Inserts(t, op) then op.entries.Keys else {} }

  /** The ids a step deletes. */
  function Gone(t: Table, op: Op, now: int): set<string> { if Deletes(op) then Hit(t, op, now) else {} }

  function SentNow(t: Table, o: Timed): set<string> { if o.op.MarkAsSent? then Gone(t, o.op, o.now) else {} }

  function RemovedNow(t: Table, o: Timed): set<string> { if o.op.MarkAsSent? then {} else Gone(t, o.op, o.now) }

  function EnqueuedIn(t: Table, ops: seq<Timed>): multiset<string>
    decreases |ops|
  {
    if ops == [] then multiset{}
    else multiset(Added(t, ops[0].op)) + EnqueuedIn(Step(t, ops[0].op, ops[0].now), ops[1..])
  }

  function SentIn(t: Table, ops: seq<Timed>): multiset<string>
    decreases |ops|
  {
    if ops == [] then multiset{}
    else multiset(SentNow(t, ops[0])) + SentIn(Step(t, ops[0].op, ops[0].now), ops[1..])
  }

  function RemovedIn(t: Table, ops: seq<Timed>): multiset<string>
    decreases |ops|
  {
    if ops == [] then multiset{}
    else multiset(RemovedNow(t, ops[0])) + RemovedIn(Step(t, ops[0].op, ops[0].now), ops[1..])
  }

  lemma Balance<T>(a: multiset<T>, b: multiset<T>, sent: multiset<T>, removed: multiset<T>, gone: multiset<T>,
                   added: multiset<T>, rest: multiset<T>, end: multiset<T>, sentLater: multiset<T>, removedLater: multiset<T>)
    requires a + added == b + gone && sent + removed == gone && b + rest == end + sentLater + removedLater
    ensures a + (added + rest) == end + (sent + sentLater) + (removed + removedLater)
  {
    forall x ensures (a + (added + rest))[x] == (end + (sent + sentLater) + (removed + removedLater))[x] {
      assert (a + added)[x] == (b + gone)[x] && (sent + removed)[x] == gone[x];
      assert (b + rest)[x] == (end + sentLater + removedLater)[x];
    }
  }

  /** In every run each entry ever there is sent, removed, or still a row, as often as it was enqueued. */
  lemma {:induction false} Conservation(t: Table, ops: seq<Timed>)
    ensures multiset(t.Keys) + EnqueuedIn(t, ops) == multiset(Run(t, ops).Keys) + SentIn(t, ops) + RemovedIn(t, ops)
    decreases |ops|
  {
    if ops != [] {
      var t', rest := Step(t, ops[0].op, ops[0].now), ops[1..];
      Conservation(t', rest);
      Balance(multiset(t.Keys), multiset(t'.Keys), multiset(SentNow(t, ops[0])), multiset(RemovedNow(t, ops[0])),
              multiset(Gone(t, ops[0].op, ops[0].now)), multiset(Added(t, ops[0].op)), EnqueuedIn(t', rest),
              multiset(Run(t', rest).Keys), SentIn(t', rest), RemovedIn(t', rest));
    }
  }

  lemma StepKeepsOwner(t: Table, op: Op, now: int, id: string)
    requires id in t && id in Step(t, op, now)
    ensures Step(t, op, now)[id].source == t[id].source && Step(t, op, now)[id].email == t[id].email
  {
  }

  /** While an entry stays in the queue no operation moves it to another source or another recipient. */
  lemma {:induction false} OwnerIsFixed(t: Table, ops: seq<Timed>, id: string)
    requires id in t && id !in SentIn(t, ops) && id !in RemovedIn(t, ops)
    ensures id in Run(t, ops) && Run(t, ops)[id].source == t[id].source && Run(t, ops)[id].email == t[id].email
    decreases |ops|
  {
    if ops != [] {
      assert id !in SentNow(t, ops[0]) && id !in RemovedNow(t, ops[0]);
      StepKeepsOwner(t, ops[0].op, ops[0].now, id);
      OwnerIsFixed(Step(t, ops[0].op, ops[0].now), ops[1..], id);
    }
  }

  // ---- the five counts -------------------------------------------------------------------------

  datatype Counts = Counts(pending: nat, processing: nat, paused: nat, failedRetrying: nat, failedTerminal: nat)

  function RowsOf(t: Table, s: Source): set<string> { set id | id in t && t[id].source == s }

  /** The five CASE expressions. */
  datatype Bucket = InPending | InProcessing | InPaused | InRetrying | InTerminal

  predicate In(row: Row, b: Bucket) {
    match b
    case InPending => row.status == Pending
    case InProcessing => row.status == Processing
    case InPaused => row.status == Paused
    case InRetrying => row.status == Failed && row.nextRetry != None
    case InTerminal => row.status == Failed && row.nextRetry == None
  }

  function Having(t: Table, s: Source, b: Bucket): set<string> {
    set id | id in t && t[id].source == s && In(t[id], b)
  }

  function SourceCounts(t: Table, s: Source): Counts {
    Counts(|Having(t, s, InPending)|, |Having(t, s, InProcessing)|, |Having(t, s, InPaused)|,
           |Having(t, s, InRetrying)|, |Having(t, s, InTerminal)|)
  }

  function InFlight(c: Counts): nat { c.pending + c.processing + c.paused + c.failedRetrying }

  /** The rows still on their way out. */
  function Flying(t: Table, s: Source): set<string> { set id | id in t && t[id].source == s && !GivenUp(t[id]) }

  lemma BucketsAreDisjoint(t: Table, s: Source)
    ensures var a, b, c, d, e := Having(t, s, InPending), Having(t, s, InProcessing), Having(t, s, InPaused),
                                 Having(t, s, InRetrying), Having(t, s, InTerminal);
      a !! b && (a + b) !! c && (a + b + c) !! d && (a + b + c + d) !! e
  {
  }

  lemma BucketsCover(t: Table, s: Source)
    ensures Flying(t, s) ==
      Having(t, s, InPending) + Having(t, s, InProcessing) + Having(t, s, InPaused) + Having(t, s, InRetrying)
    ensures RowsOf(t, s) == Flying(t, s) + Having(t, s, InTerminal)
  {
  }

  /** Every row of the source is in exactly one of the five counts. */
  lemma CountsPartition(t: Table, s: Source)
    ensures InFlight(SourceCounts(t, s)) == |Flying(t, s)|
    ensures InFlight(SourceCounts(t, s)) + SourceCounts(t, s).failedTerminal == |RowsOf(t, s)|
  {
    BucketsAreDisjoint(t, s);
    BucketsCover(t, s);
  }

  /** Nothing is in flight exactly when every surviving row of the source has been given up on. */
  lemma NothingInFlightExactlyWhen(t: Table, s: Source)
    ensures InFlight(SourceCounts(t, s)) == 0 <==> forall id :: id in t && t[id].source == s ==> GivenUp(t[id])
  {
    CountsPartition(t, s);
    if Flying(t, s) == {} {
      forall id | id in t && t[id].source == s ensures GivenUp(t[id]) { assert id !in Flying(t, s); }
    } else {
      var id :| id in Flying(t, s);
    }
  }

  /** So over a run from the empty queue every entry not sent and not removed is in one of its source's counts. */
  lemma CountsAccount(ops: seq<Timed>, s: Source)
    ensures EnqueuedIn(map[], ops) == multiset(Run(map[], ops).Keys) + SentIn(map[], ops) + RemovedIn(map[], ops)
    ensures var c := SourceCounts(Run(map[], ops), s); InFlight(c) + c.failedTerminal == |RowsOf(Run(map[], ops), s)|
  {
    var empty: Table := map[];
    Conservation(empty, ops);
    assert multiset(empty.Keys) == multiset{};
    CountsPartition(Run(map[], ops), s);
  }

  // ---- giving up and coming back ---------------------------------------------------------------

  /** The step takes an entry back from being given up on, without deleting it. */
  predicate Revives(t: Table, op: Op, id: string) {
    && id in t && GivenUp(t[id])
    && match op
       case ResetTerminallyFailed(s, _) => s == t[id].source
       case MarkAsProcessing(i) => i == id
       case SetNextRetry(i, _) => i == id
       case MarkAsFailed(i, _, retry) => i == id && retry.Some?
       case _ => false
  }

  lemma StepRevivesExactlyWhen(t: Table, op: Op, now: int, id: string)
    requires id in t && GivenUp(t[id])
    ensures id in Step(t, op, now) && !GivenUp(Step(t, op, now)[id]) <==> Revives(t, op, id)
  {
    StepRow(t, op, now, id);
  }

  /** Some step of the run is one of those, before the entry is deleted. */
  predicate EverRevives(t: Table, ops: seq<Timed>, id: string)
    decreases |ops|
  {
    ops != [] &&
    (Revives(t, ops[0].op, id) || (id in Step(t, ops[0].op, ops[0].now) && EverRevives(Step(t, ops[0].op, ops[0].now), ops[1..], id)))
  }

  /** In some table along the run, up to its deletion, the entry is not given up on. */
  predicate ComesBack(t: Table, ops: seq<Timed>, id: string)
    decreases |ops|
  {
    id in t && (!GivenUp(t[id]) || (ops != [] && ComesBack(Step(t, ops[0].op, ops[0].now), ops[1..], id)))
  }

  /** In some table along the run, up to its deletion, a worker could be handed the entry, now or later. */
  ghost predicate EverFetchable(t: Table, ops: seq<Timed>, id: string)
    decreases |ops|
  {
    id in t && ((exists now :: Fetchable(t[id], now)) || (ops != [] && EverFetchable(Step(t, ops[0].op, ops[0].now), ops[1..], id)))
  }

  /**
   * Over every run an entry given up on comes back exactly if one of those steps occurs before it is deleted; and
   * unless one does no worker is ever handed it.
   */
  lemma {:induction false} ComesBackExactlyWhen(t: Table, ops: seq<Timed>, id: string)
    requires id in t && GivenUp(t[id])
    ensures ComesBack(t, ops, id) <==> EverRevives(t, ops, id)
    ensures !EverRevives(t, ops, id) ==> !EverFetchable(t, ops, id)
    decreases |ops|
  {
    forall now ensures !Fetchable(t[id], now) { FetchableFrom(t[id], now); }
    if ops != [] {
      var t' := Step(t, ops[0].op, ops[0].now);
      StepRevivesExactlyWhen(t, ops[0].op, ops[0].now, id);
      if id in t' && GivenUp(t'[id]) {
        ComesBackExactlyWhen(t', ops[1..], id);
      }
    }
  }

  lemma PausedThenResumed(t: Table, s: Source, now: int, later: int, id: string)
    ensures var t' := Step(Step(t, PauseBySource(s), now), ResumeBySource(s), later);
      && (id in t' <==> id in t)
      && (id in t ==>
           t'[id] == if t[id].source == s && !GivenUp(t[id]) && !t[id].status.Processing?
                     then t[id].(status := Pending, nextRetry := None, updatedAt := later) else t[id])
  {
    StepRow(t, PauseBySource(s), now, id);
    StepRow(Step(t, PauseBySource(s), now), ResumeBySource(s), later, id);
  }

  /** Pausing and resuming a source: what was waiting is due at once, what was given up on or being sent is left. */
  lemma PauseThenResume(t: Table, s: Source, now: int, later: int)
    ensures var t' := Step(Step(t, PauseBySource(s), now), ResumeBySource(s), later);
      && t'.Keys == t.Keys
      && forall id :: id in t ==>
           if t[id].source == s && !GivenUp(t[id]) && !t[id].status.Processing?
           then (t'[id] == t[id].(status := Pending, nextRetry := None, updatedAt := later)
                 && (Fetchable(t'[id], later) <==> t[id].attempts < t[id].maxAttempts))
           else t'[id] == t[id]
  {
    var t' := Step(Step(t, PauseBySource(s), now), ResumeBySource(s), later);
    forall id ensures id in t' <==> id in t { PausedThenResumed(t, s, now, later, id); }
    forall id | id in t
      ensures if t[id].source == s && !GivenUp(t[id]) && !t[id].status.Processing?
              then t'[id] == t[id].(status := Pending, nextRetry := None, updatedAt := later) else t'[id] == t[id]
    {
      PausedThenResumed(t, s, now, later, id);
    }
  }

  lemma SameFlight(t: Table, op: Op, now: int, s: Source)
    requires op == PauseBySource(s) || op == ResumeBySource(s)
    ensures Flying(Step(t, op, now), s) == Flying(t, s)
  {
  }

  /** Neither loses or adds anything in flight. */
  lemma PausingKeepsFlight(t: Table, op: Op, now: int, s: Source)
    requires op == PauseBySource(s) || op == ResumeBySource(s)
    ensures InFlight(SourceCounts(Step(t, op, now), s)) == InFlight(SourceCounts(t, s))
    ensures SourceCounts(Step(t, op, now), s).failedTerminal == SourceCounts(t, s).failedTerminal
  {
    CountsPartition(t, s);
    CountsPartition(Step(t, op, now), s);
    SameFlight(t, op, now, s);
    SameTerminal(t, op, now, s);
  }

  lemma SameTerminal(t: Table, op: Op, now: int, s: Source)
    requires op == PauseBySource(s) || op == ResumeBySource(s)
    ensures Having(Step(t, op, now), s, InTerminal) == Having(t, s, InTerminal)
  {
  }

  lemma RetriedRows(t: Table, s: Source, integration: string, now: int)
    ensures var t' := Step(t, ResetTerminallyFailed(s, integration), now);
      && RowsOf(t', s) == RowsOf(t, s) && Having(t', s, InTerminal) == {}
      && forall id :: id in Having(t, s, InTerminal) ==>
           id in t' && t'[id].attempts == 0 && t'[id].integration == integration
           && (t[id].maxAttempts > 0 ==> Fetchable(t'[id], now))
  {
  }

  /** A retry moves exactly the terminal failures into flight, each with a whole budget. */
  lemma RetryMovesTerminal(t: Table, s: Source, integration: string, now: int)
    ensures var t' := Step(t, ResetTerminallyFailed(s, integration), now);
      && SourceCounts(t', s).failedTerminal == 0
      && InFlight(SourceCounts(t', s)) == InFlight(SourceCounts(t, s)) + SourceCounts(t, s).failedTerminal
  {
    var t' := Step(t, ResetTerminallyFailed(s, integration), now);
    CountsPartition(t, s);
    CountsPartition(t', s);
    RetriedRows(t, s, integration, now);
  }

  lemma Pausing(t: Table, s: Source, now: int)
    ensures var t' := Step(t, PauseBySource(s), now);
      && Having(t', s, InPending) == {} && Having(t', s, InRetrying) == {}
      && Having(t', s, InPaused) == Having(t, s, InPaused) + Having(t, s, InPending) + Having(t, s, InRetrying)
      && Having(t', s, InProcessing) == Having(t, s, InProcessing)
  {
  }

  lemma Resuming(t: Table, s: Source, now: int)
    ensures var t' := Step(t, ResumeBySource(s), now);
      && Having(t', s, InPaused) == {} && Having(t', s, InPending) == Having(t, s, InPaused) + Having(t, s, InPending)
      && Having(t', s, InProcessing) == Having(t, s, InProcessing) && Having(t', s, InRetrying) == Having(t, s, InRetrying)
  {
  }

  lemma WaitingAreDisjoint(t: Table, s: Source)
    ensures var a, b, c := Having(t, s, InPaused), Having(t, s, InPending), Having(t, s, InRetrying);
      a !! b && (a + b) !! c
  {
  }

  lemma Sizes3<T>(a: set<T>, b: set<T>, c: set<T>)
    requires a !! b && (a + b) !! c
    ensures |a + b| == |a| + |b| && |a + b + c| == |a| + |b| + |c|
  {
  }

  /** Which counts a pause moves where. */
  lemma PausingMovesCounts(t: Table, s: Source, now: int)
    ensures var c := SourceCounts(t, s);
      SourceCounts(Step(t, PauseBySource(s), now), s)
        == Counts(0, c.processing, c.paused + c.pending + c.failedRetrying, 0, c.failedTerminal)
  {
    Pausing(t, s, now);
    WaitingAreDisjoint(t, s);
    SameTerminal(t, PauseBySource(s), now, s);
    Sizes3(Having(t, s, InPaused), Having(t, s, InPending), Having(t, s, InRetrying));
  }

  /** And a resumption. */
  lemma ResumingMovesCounts(t: Table, s: Source, now: int)
    ensures var c := SourceCounts(t, s);
      SourceCounts(Step(t, ResumeBySource(s), now), s)
        == Counts(c.pending + c.paused, c.processing, 0, c.failedRetrying, c.failedTerminal)
  {
    Resuming(t, s, now);
    WaitingAreDisjoint(t, s);
    SameTerminal(t, ResumeBySource(s), now, s);
    Sizes3(Having(t, s, InPaused), Having(t, s, InPending), Having(t, s, InRetrying));
  }

  // ---- what a deletion takes -------------------------------------------------------------------

  lemma SameBucket(t: Table, t': Table, s: Source, b: Bucket)
    requires forall id :: id in t' ==> id in t && t'[id] == t[id]
    requires forall id :: id in t && t[id].source == s && In(t[id], b) ==> id in t'
    ensures Having(t', s, b) == Having(t, s, b)
  {
  }

  /**
   * Cancelling a source: an entry survives, unchanged, exactly if it is of another source or being sent. So the counts
   * of every other source stay, and of this one only what is being sent is left.
   */
  lemma SourceCancelled(t: Table, s: Source, now: int)
    ensures var t' := Step(t, DeleteBySource(s), now);
      && (forall id :: id in t' <==> id in t && (t[id].source != s || t[id].status == Processing))
      && (forall id :: id in t' ==> t'[id] == t[id])
      && SourceCounts(t', s) == Counts(0, SourceCounts(t, s).processing, 0, 0, 0)
      && forall other :: other != s ==> SourceCounts(t', other) == SourceCounts(t, other)
  {
    var t' := Step(t, DeleteBySource(s), now);
    forall other, b | other != s || b == InProcessing ensures Having(t', other, b) == Having(t, other, b) {
      SameBucket(t, t', other, b);
    }
    forall b | b != InProcessing ensures Having(t', s, b) == {} {}
  }

  /** Forgetting a recipient: exactly that recipient's entries go, even those being sent. */
  lemma RecipientForgotten(t: Table, email: string, now: int)
    ensures var t' := Step(t, DeleteForEmail(email), now);
      && (forall id :: id in t' <==> id in t && t[id].email != email)
      && (forall id :: id in t' ==> t'[id] == t[id])
      && forall s :: (forall id :: id in t && t[id].source == s ==> t[id].email != email) ==> SourceCounts(t', s) == SourceCounts(t, s)
  {
    var t' := Step(t, DeleteForEmail(email), now);
    forall s, b | forall id :: id in t && t[id].source == s ==> t[id].email != email ensures Having(t', s, b) == Having(t, s, b) {
      SameBucket(t, t', s, b);
    }
  }

  /** The retention sweep: exactly what was given up on longer ago goes, so nothing in flight does. */
  lemma SweepTakesExpired(t: Table, days: int, now: int)
    ensures var t' := Step(t, DeleteTerminallyFailed(days), now);
      && (forall id :: id in t' ==> id in t && t'[id] == t[id])
      && (forall id :: id in t ==>
            (id !in t' <==> (t[id].status == Failed && t[id].nextRetry == None
                             && t[id].processedAt.Some? && t[id].processedAt.value + days * 86400 < now)))
      && forall s :: SourceCounts(t', s).(failedTerminal := 0) == SourceCounts(t, s).(failedTerminal := 0)
  {
    var t' := Step(t, DeleteTerminallyFailed(days), now);
    forall s, b | b != InTerminal ensures Having(t', s, b) == Having(t, s, b) {
      SameBucket(t, t', s, b);
    }
  }

  /** From when on an entry can be fetched: its retry date, two minutes after a worker last touched it, or never. */
  lemma FetchableFrom(row: Row, now: int)
    ensures Fetchable(row, now) <==> match row.status
      case Pending => row.attempts < row.maxAttempts && (row.nextRetry == None || row.nextRetry.value <= now)
      case Failed => row.attempts < row.maxAttempts && row.nextRetry.Some? && row.nextRetry.value <= now
      case Processing => row.updatedAt + 120 < now
      case Paused => false
  {
  }

  // ---- entries that stay in flight for good ----------------------------------------------------

  predicate Spent(row: Row) { row.attempts >= row.maxAttempts }

  /** In flight, yet with the budget spent: counted as on its way out, and never fetched. */
  predicate Stranded(row: Row) {
    Spent(row) && (row.status.Pending? || (row.status.Failed? && row.nextRetry.Some?))
  }

  /** An entry in flight will never be fetched, however long it waits, exactly when it is paused or stranded. */
  lemma NeverFetchedExactlyWhen(row: Row)
    requires !GivenUp(row)
    ensures (forall now :: !Fetchable(row, now)) <==> row.status.Paused? || Stranded(row)
  {
    var soon := if row.status.Processing? then row.updatedAt + STUCK_SECONDS + 1
                else if row.nextRetry.Some? then row.nextRetry.value else 0;
    if !(row.status.Paused? || Stranded(row)) {
      assert Fetchable(row, soon);
    }
  }

  /** The step strands the entry: what the writer would have to check before it. */
  predicate Strands(t: Table, op: Op, id: string) {
    if id !in t then Inserts(t, op) && id in op.entries && Stranded(Inserted(op.entries[id], 0))
    else
      !Stranded(t[id]) &&
      match op
      case SetNextRetry(i, _) => i == id && !t[id].status.Paused? && Spent(t[id])
      case MarkAsFailed(i, _, retry) => i == id && retry.Some? && Spent(t[id])
      case ResumeBySource(s) => s == t[id].source && t[id].status.Paused? && Spent(t[id])
      case ResetTerminallyFailed(s, _) => s == t[id].source && GivenUp(t[id]) && t[id].maxAttempts <= 0
      case _ => false
  }

  /** Which step makes an entry stranded that was not. */
  lemma StepStrandsExactlyWhen(t: Table, op: Op, now: int, id: string)
    ensures id in Step(t, op, now) && Stranded(Step(t, op, now)[id]) && !(id in t && Stranded(t[id])) <==> Strands(t, op, id)
  {
  }

  predicate SomeStranded(t: Table) { exists id :: id in t && Stranded(t[id]) }

  /** Some table along the run has a stranded entry. */
  predicate EverStranded(t: Table, ops: seq<Timed>)
    decreases |ops|
  {
    SomeStranded(t) || (ops != [] && EverStranded(Step(t, ops[0].op, ops[0].now), ops[1..]))
  }

  /** Some step of the run is one of those. */
  ghost predicate EverStrands(t: Table, ops: seq<Timed>)
    decreases |ops|
  {
    ops != [] &&
    ((exists id :: Strands(t, ops[0].op, id)) || EverStrands(Step(t, ops[0].op, ops[0].now), ops[1..]))
  }

  /** Over every run no entry is ever stranded exactly while none of those steps occurs. */
  lemma {:induction false} NeverStrandedExactlyWhen(t: Table, ops: seq<Timed>)
    requires !SomeStranded(t)
    ensures EverStranded(t, ops) <==> EverStrands(t, ops)
    decreases |ops|
  {
    if ops != [] {
      var op, now := ops[0].op, ops[0].now;
      var t' := Step(t, op, now);
      forall id ensures id in t' && Stranded(t'[id]) <==> Strands(t, op, id) {
        StepStrandsExactlyWhen(t, op, now, id);
      }
      if !SomeStranded(t') {
        NeverStrandedExactlyWhen(t', ops[1..]);
      }
    }
  }

  // ---- the budget ------------------------------------------------------------------------------

  predicate WithinBudget(t: Table) { forall id :: id in t ==> t[id].attempts <= t[id].maxAttempts }

  /** Only taking an entry whose budget is spent goes over it; a fetched one has spent it only if it was stuck. */
  lemma BudgetExceededExactlyWhen(t: Table, op: Op, now: int)
    requires WithinBudget(t)
    requires op.Enqueue? ==> forall id :: id in op.entries ==> 0 == op.entries[id].attempts <= op.entries[id].maxAttempts
    requires forall id :: id in t ==> t[id].maxAttempts >= 0
    ensures !WithinBudget(Step(t, op, now)) <==>
      op.MarkAsProcessing? && op.id in t && Selects(op, op.id, t[op.id], now) && t[op.id].attempts == t[op.id].maxAttempts
  {
    if op.MarkAsProcessing? && op.id in t && Selects(op, op.id, t[op.id], now) {
      assert op.id in Step(t, op, now) && Step(t, op, now)[op.id].attempts == t[op.id].attempts + 1;
    }
  }
}
