/** The queue's workers on stale copies: how often an entry is sent, and by how many at once, over every interleaving. */
module EmailWorkers {
  import opened Sql
  import opened Tally
  import opened EmailQueue
  import opened EmailQueueLife

  // ---- the workers -----------------------------------------------------------------------------

  /** An entry as it was fetched; nothing locks the row afterwards. */
  datatype Copy = Copy(id: string, row: Row)

  /** Where the worker is with the first copy of its batch. */
  datatype Phase = Before | Taken | Delivered | Refused(permanent: bool)

  /** One pass over the workspace's entries. A server makes one pass at a time, so there are as many as there are servers. */
  datatype Worker = Worker(batch: seq<Copy>, phase: Phase)

  const IDLE := Worker([], Before)

  datatype State = State(table: Table, workers: seq<Worker>)

  datatype Action =
    | Fetch(w: nat, ids: seq<string>, now: int) // FetchPending
    | Postpone(w: nat, at: int, now: int)       // the circuit is open: SetNextRetry
    | Take(w: nat, now: int)                    // MarkAsProcessing
    | Withdraw(w: nat, now: int)                // the journey is no longer active: deleted unsent
    | Send(w: nat, outcome: Phase)              // the provider's answer, or none for want of an integration
    | Settle(w: nat, retryAt: int, now: int)    // MarkAsSent, MarkAsFailed or MarkAsPermanentlyFailed
    | GoOn(w: nat)                              // leaves the entry as it is: an error of the database, or cancelled
    | Crash(w: nat)
    | Operate(op: Op, now: int)                 // anybody else

  predicate Distinct(ids: seq<string>) { forall i, j :: 0 <= i < j < |ids| ==> ids[i] != ids[j] }

  /** What the rest of the application does to the queue. */
  predicate IsOperators(op: Op) {
    op.Enqueue? || op.ResetTerminallyFailed? || op.DeleteTerminallyFailed? || op.PauseBySource? || op.ResumeBySource?
    || op.DeleteBySource? || op.DeleteForEmail? || op.Delete?
  }

  predicate Busy(s: State, w: nat, phase: Phase) { w < |s.workers| && s.workers[w].batch != [] && s.workers[w].phase == phase }

  /** The query picks any fetchable rows: how many, and in which order, is left open. */
  predicate Enabled(s: State, a: Action) {
    match a
    case Fetch(w, ids, now) =>
      w < |s.workers| && s.workers[w].batch == [] && Distinct(ids)
      && forall id :: id in ids ==> id in s.table && Fetchable(s.table[id], now)
    case Postpone(w, _, _) => Busy(s, w, Before)
    case Take(w, _) => Busy(s, w, Before)
    case Withdraw(w, _) => Busy(s, w, Taken)
    case Send(w, outcome) => Busy(s, w, Taken) && (outcome.Delivered? || outcome.Refused?)
    case Settle(w, _, _) => Busy(s, w, Delivered) || Busy(s, w, Refused(true)) || Busy(s, w, Refused(false))
    case GoOn(w) => w < |s.workers| && s.workers[w].batch != []
    case Crash(w) => w < |s.workers|
    case Operate(op, _) => IsOperators(op)
  }

  function Head(s: State, w: nat): Copy
    requires w < |s.workers| && s.workers[w].batch != []
  {
    s.workers[w].batch[0]
  }

  /** Past its first copy. */
  function Next(w: Worker): Worker
    requires w.batch != []
  {
    Worker(w.batch[1..], Before)
  }

  /** How the worker settles: by the attempts of its copy, not of the row. */
  function Settlement(w: Worker, retryAt: int): Op
    requires w.batch != [] && !w.phase.Before? && !w.phase.Taken?
  {
    var c := w.batch[0];
    if w.phase.Delivered? then MarkAsSent(c.id)
    else if c.row.attempts + 1 >= c.row.maxAttempts || w.phase.permanent then MarkAsPermanentlyFailed(c.id, "refused")
    else MarkAsFailed(c.id, "refused", Some(retryAt))
  }

  predicate Takes(s: State, w: nat, now: int)
    requires w < |s.workers| && s.workers[w].batch != []
  {
    var id := Head(s, w).id;
    id in s.table && Selects(MarkAsProcessing(id), id, s.table[id], now)
  }

  function Do(s: State, a: Action): State
    requires Enabled(s, a)
  {
    match a
    case Fetch(w, ids, _) =>
      s.(workers := s.workers[w := Worker(seq(|ids|, i requires 0 <= i < |ids| => Copy(ids[i], s.table[ids[i]])), Before)])
    case Postpone(w, at, now) =>
      State(Step(s.table, SetNextRetry(Head(s, w).id, at), now), s.workers[w := Next(s.workers[w])])
    case Take(w, now) =>
      if Takes(s, w, now)
      then State(Step(s.table, MarkAsProcessing(Head(s, w).id), now), s.workers[w := s.workers[w].(phase := Taken)])
      else s.(workers := s.workers[w := Next(s.workers[w])])
    case Withdraw(w, now) => State(Step(s.table, MarkAsSent(Head(s, w).id), now), s.workers[w := Next(s.workers[w])])
    case Send(w, outcome) => s.(workers := s.workers[w := s.workers[w].(phase := outcome)])
    case Settle(w, retryAt, now) =>
      State(Step(s.table, Settlement(s.workers[w], retryAt), now), s.workers[w := Next(s.workers[w])])
    case GoOn(w) => s.(workers := s.workers[w := Next(s.workers[w])])
    case Crash(w) => s.(workers := s.workers[w := IDLE])
    case Operate(op, now) => s.(table := Step(s.table, op, now))
  }

  predicate Legal(s: State, run: seq<Action>)
    decreases |run|
  {
    run == [] || (Enabled(s, run[0]) && Legal(Do(s, run[0]), run[1..]))
  }

  function Exec(s: State, run: seq<Action>): State
    requires Legal(s, run)
    decreases |run|
  {
    if run == [] then s else Exec(Do(s, run[0]), run[1..])
  }

  function Start(n: nat): State { State(map[], seq(n, _ => IDLE)) }

  // ---- what is counted about one entry ---------------------------------------------------------

  /**
   * Successful takes, sends, fetches of the entry stuck in processing, and grants of a whole budget, that is inserts
   * and resets; `earlier` is the takes before the last grant. `risks` counts what can put an entry in more hands
   * than one: takes of a stuck row, a row postponed while it is being processed, an id inserted again while in hand.
   */
  datatype Counters = Counters(takes: nat, sends: nat, reclaims: nat, grants: nat, earlier: nat, risks: nat)

  const NOTHING := Counters(0, 0, 0, 0, 0, 0)

  predicate Grants(s: State, op: Op, now: int, id: string) {
    (Inserts(s.table, op) && id in op.entries)
    || (op.ResetTerminallyFailed? && id in s.table && Selects(op, id, s.table[id], now))
  }

  predicate InProgress(t: Table, id: string) { id in t && t[id].status.Processing? }

  function Counted(s: State, a: Action, id: string, c: Counters): Counters
    requires Enabled(s, a)
  {
    match a
    case Fetch(_, ids, _) => if id in ids && InProgress(s.table, id) then c.(reclaims := c.reclaims + 1) else c
    case Take(w, now) =>
      if Head(s, w).id == id && Takes(s, w, now)
      then c.(takes := c.takes + 1, risks := c.risks + Bit(InProgress(s.table, id))) else c
    case Send(w, _) => if Head(s, w).id == id then c.(sends := c.sends + 1) else c
    case Postpone(w, _, _) =>
      if Head(s, w).id == id then c.(risks := c.risks + Bit(InProgress(s.table, id))) else c
    case Operate(op, now) =>
      if Grants(s, op, now, id)
      then c.(grants := c.grants + 1, earlier := c.takes, risks := c.risks + Bit(op.Enqueue? && InHand(s, id) > 0)) else c
    case _ => c
  }

  function CountedOver(s: State, run: seq<Action>, id: string, c: Counters): Counters
    requires Legal(s, run)
    decreases |run|
  {
    if run == [] then c else CountedOver(Do(s, run[0]), run[1..], id, Counted(s, run[0], id, c))
  }

  // ---- who holds the entry ---------------------------------------------------------------------

  /** Copies of the entry the worker has not yet tried to take. */
  function Waiting(w: Worker, id: string): nat {
    Copies(if w.batch != [] && !w.phase.Before? then w.batch[1..] else w.batch, id)
  }

  function Copies(batch: seq<Copy>, id: string): nat { Sum(batch, (c: Copy) => Bit(c.id == id)) }

  predicate AtHead(w: Worker, id: string) { w.batch != [] && w.batch[0].id == id }

  /** The worker has taken the entry and has not sent it. */
  predicate Ready(w: Worker, id: string) { AtHead(w, id) && w.phase == Taken }

  /** The worker has taken the entry and not settled it. */
  predicate Keeps(w: Worker, id: string) { AtHead(w, id) && w.phase != Before }

  function WaitingAll(s: State, id: string): nat { Sum(s.workers, (w: Worker) => Waiting(w, id)) }
  function ReadyAll(s: State, id: string): nat { Sum(s.workers, (w: Worker) => Bit(Ready(w, id))) }
  function InHand(s: State, id: string): nat { Sum(s.workers, (w: Worker) => Bit(Keeps(w, id))) }
}
