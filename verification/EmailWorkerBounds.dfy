/** Bounds on sends and on hands, over every interleaving of any number of workers and of the rest of the application. */
module EmailWorkerBounds {
  import opened Sql
  import opened Tally
  import opened EmailQueue
  import opened EmailQueueLife
  import opened EmailWorkers

  // ---- one worker ------------------------------------------------------------------------------

  predicate WorkerOk(w: Worker, id: string) {
    Copies(w.batch, id) <= 1 && (w.batch == [] ==> w.phase == Before)
  }

  lemma {:induction false} DistinctCopies(batch: seq<Copy>, id: string)
    requires forall i, j :: 0 <= i < j < |batch| ==> batch[i].id != batch[j].id
    ensures Copies(batch, id) == Bit(exists i :: 0 <= i < |batch| && batch[i].id == id)
  {
    if batch != [] {
      var rest := batch[1..];
      DistinctCopies(rest, id);
      if i :| 0 <= i < |rest| && rest[i].id == id {
        assert batch[i + 1].id == id;
      }
      if i :| 0 < i < |batch| && batch[i].id == id {
        assert rest[i - 1].id == id;
      }
    }
  }

  /** What a worker that goes past its first copy no longer holds. */
  lemma NextHolds(w: Worker, id: string)
    requires w.batch != [] && WorkerOk(w, id)
    ensures WorkerOk(Next(w), id) && !Ready(Next(w), id) && !Keeps(Next(w), id)
    ensures Waiting(Next(w), id) + Bit(w.phase.Before? && AtHead(w, id)) == Waiting(w, id)
  {
  }

  lemma PhaseHolds(w: Worker, phase: Phase, id: string)
    requires w.batch != [] && WorkerOk(w, id) && phase != Before
    ensures WorkerOk(w.(phase := phase), id)
    ensures Waiting(w.(phase := phase), id) + Bit(w.phase.Before? && AtHead(w, id)) == Waiting(w, id)
  {
  }

  // ---- the sums after a step -------------------------------------------------------------------

  lemma SumsAfter(s: State, a: Action, id: string)
    requires Enabled(s, a) && !a.Operate?
    ensures var s' := Do(s, a);
      var h, h' := s.workers[a.w], s'.workers[a.w];
      && s'.workers == s.workers[a.w := h']
      && WaitingAll(s', id) + Waiting(h, id) == WaitingAll(s, id) + Waiting(h', id)
      && ReadyAll(s', id) + Bit(Ready(h, id)) == ReadyAll(s, id) + Bit(Ready(h', id))
      && InHand(s', id) + Bit(Keeps(h, id)) == InHand(s, id) + Bit(Keeps(h', id))
  {
    var s' := Do(s, a);
    var h' := s'.workers[a.w];
    assert s'.workers == s.workers[a.w := h'];
    SumUpdate(s.workers, (w: Worker) => Waiting(w, id), a.w, h');
    SumUpdate(s.workers, (w: Worker) => Bit(Ready(w, id)), a.w, h');
    SumUpdate(s.workers, (w: Worker) => Bit(Keeps(w, id)), a.w, h');
  }

  predicate AllOk(s: State, id: string) { forall i :: 0 <= i < |s.workers| ==> WorkerOk(s.workers[i], id) }

  /** The worker of the step: what it holds before and after, and what the step counts. */
  lemma HolderAfter(s: State, a: Action, id: string, c: Counters)
    requires Enabled(s, a) && !a.Operate? && AllOk(s, id)
    ensures var h, h', c' := s.workers[a.w], Do(s, a).workers[a.w], Counted(s, a, id, c);
      && WorkerOk(h', id)
      && (a.Fetch? ==> Waiting(h, id) == 0 && Waiting(h', id) == Bit(id in a.ids) && !Ready(h', id) && !Keeps(h', id))
      && (!a.Fetch? ==> c'.takes + Waiting(h', id) <= c.takes + Waiting(h, id))
      && c'.sends + Bit(Ready(h', id)) + c.takes <= c.sends + Bit(Ready(h, id)) + c'.takes
  {
    var h := s.workers[a.w];
    if a.Fetch? {
      FetchedCopies(s, a, id);
    } else if h.batch != [] {
      NextHolds(h, id);
      if a.Take? {
        PhaseHolds(h, Taken, id);
      } else if a.Send? {
        PhaseHolds(h, a.outcome, id);
      }
    }
  }

  lemma FetchedCopies(s: State, a: Action, id: string)
    requires Enabled(s, a) && a.Fetch? && AllOk(s, id)
    ensures var h' := Do(s, a).workers[a.w];
      WorkerOk(h', id) && Waiting(h', id) == Bit(id in a.ids) && Waiting(s.workers[a.w], id) == 0
  {
    var batch := Do(s, a).workers[a.w].batch;
    DistinctCopies(batch, id);
    if id in a.ids {
      var i :| 0 <= i < |a.ids| && a.ids[i] == id;
      assert batch[i].id == id;
    }
    if i :| 0 <= i < |batch| && batch[i].id == id {
      assert a.ids[i] == id;
    }
  }

  // ---- the budget ------------------------------------------------------------------------------

  /** What the inserts of the run give the entry: a count of attempts that starts at zero or above, and at most `max`. */
  predicate Budgeted(a: Action, id: string, max: nat) {
    a.Operate? && a.op.Enqueue? && id in a.op.entries ==>
      a.op.entries[id].attempts >= 0 && Inserted(a.op.entries[id], a.now).maxAttempts <= max
  }

  /** Takes with `grants` budgets: all but one by fetching, the last by as many workers as hold a copy by then. */
  function Allowance(max: nat, n: nat, grants: nat): int {
    if grants == 0 then 0 else Allowance(max, n, grants - 1) + max - 1 + n
  }

  lemma {:induction false} AllowanceIs(max: nat, n: nat, grants: nat)
    requires max >= 1
    ensures 0 <= Allowance(max, n, grants) == (max - 1 + n) * grants
  {
    if grants > 0 {
      AllowanceIs(max, n, grants - 1);
      assert (max - 1 + n) * grants == (max - 1 + n) * (grants - 1) + (max - 1 + n);
    }
  }

  predicate RowOk(s: State, id: string, c: Counters, max: nat) {
    id in s.table ==>
      && c.grants >= 1 && s.table[id].attempts >= 0 && s.table[id].maxAttempts <= max
      && c.takes <= c.earlier + s.table[id].attempts
  }

  ghost predicate Inv(s: State, id: string, c: Counters, max: nat) {
    var n := |s.workers|;
    && AllOk(s, id)
    && c.sends + ReadyAll(s, id) <= c.takes
    && c.takes + WaitingAll(s, id) <= Allowance(max, n, c.grants) + c.reclaims
    && RowOk(s, id, c, max)
    && (c.grants >= 1 ==> c.earlier <= Allowance(max, n, c.grants - 1) + c.reclaims)
    && (c.grants <= 1 ==> c.earlier == 0)
    && (c.grants == 0 ==> c.takes == 0)
  }

  /** A worker's statement takes the entry, counting the attempt, or leaves its attempts alone. */
  lemma WorkerRow(s: State, a: Action, id: string, c: Counters, max: nat)
    requires Enabled(s, a) && !a.Operate? && RowOk(s, id, c, max)
    ensures RowOk(Do(s, a), id, Counted(s, a, id, c), max)
    ensures var c' := Counted(s, a, id, c);
      && c'.grants == c.grants && c'.earlier == c.earlier && c'.reclaims >= c.reclaims
      && (c'.takes > c.takes ==> id in s.table)
  {
    match a
    case Postpone(w, at, now) => StepRow(s.table, SetNextRetry(Head(s, w).id, at), now, id);
    case Take(w, now) => StepRow(s.table, MarkAsProcessing(Head(s, w).id), now, id);
    case Withdraw(w, now) => StepRow(s.table, MarkAsSent(Head(s, w).id), now, id);
    case Settle(w, retryAt, now) => StepRow(s.table, Settlement(s.workers[w], retryAt), now, id);
    case _ =>
  }

  /** A fetch is of a row that is stuck, or has attempts left. */
  lemma FetchKeepsAllowance(s: State, a: Action, id: string, c: Counters, max: nat)
    requires Inv(s, id, c, max) && max >= 1 && Enabled(s, a) && a.Fetch?
    ensures var c' := Counted(s, a, id, c);
      c'.takes + WaitingAll(Do(s, a), id) <= Allowance(max, |s.workers|, c'.grants) + c'.reclaims
  {
    var s', n := Do(s, a), |s.workers|;
    SumsAfter(s, a, id);
    HolderAfter(s, a, id, c);
    if id in a.ids && !InProgress(s.table, id) {
      forall i | 0 <= i < n ensures Waiting(s'.workers[i], id) <= 1 {
        HolderBound(s', i, id, s, a, c);
      }
      SumBound(s'.workers, (w: Worker) => Waiting(w, id), 1);
    }
  }

  lemma HolderBound(s': State, i: nat, id: string, s: State, a: Action, c: Counters)
    requires AllOk(s, id) && Enabled(s, a) && a.Fetch? && s' == Do(s, a) && i < |s.workers|
    ensures Waiting(s'.workers[i], id) <= 1
  {
    HolderAfter(s, a, id, c);
    assert WorkerOk(s'.workers[i], id);
  }

  /** Whatever else a worker does, a take uses up a copy, and a send a take. */
  lemma WorkerKeepsSums(s: State, a: Action, id: string, c: Counters, allowed: int)
    requires Enabled(s, a) && !a.Operate? && AllOk(s, id)
    requires c.sends + ReadyAll(s, id) <= c.takes && c.takes + WaitingAll(s, id) <= allowed
    ensures var s', c' := Do(s, a), Counted(s, a, id, c);
      && AllOk(s', id) && |s'.workers| == |s.workers|
      && c'.sends + ReadyAll(s', id) <= c'.takes
      && (!a.Fetch? ==> c'.takes + WaitingAll(s', id) <= allowed)
  {
    SumsAfter(s, a, id);
    HolderAfter(s, a, id, c);
  }

  lemma WorkerKeepsInv(s: State, a: Action, id: string, c: Counters, max: nat)
    requires Inv(s, id, c, max) && max >= 1 && Enabled(s, a) && !a.Operate?
    ensures Inv(Do(s, a), id, Counted(s, a, id, c), max)
  {
    WorkerKeepsSums(s, a, id, c, Allowance(max, |s.workers|, c.grants) + c.reclaims);
    if a.Fetch? {
      FetchKeepsAllowance(s, a, id, c, max);
    }
    WorkerRow(s, a, id, c, max);
  }

  lemma OperatorRow(s: State, a: Action, id: string, c: Counters, max: nat)
    requires Enabled(s, a) && a.Operate? && RowOk(s, id, c, max) && Budgeted(a, id, max)
    ensures RowOk(Do(s, a), id, Counted(s, a, id, c), max)
  {
    StepRow(s.table, a.op, a.now, id);
  }

  lemma OperatorKeepsInv(s: State, a: Action, id: string, c: Counters, max: nat)
    requires Inv(s, id, c, max) && max >= 1 && Enabled(s, a) && a.Operate? && Budgeted(a, id, max)
    ensures Inv(Do(s, a), id, Counted(s, a, id, c), max)
  {
    OperatorRow(s, a, id, c, max);
    AllowanceIs(max, |s.workers|, c.grants);
  }

  lemma {:induction false} RunKeepsInv(s: State, run: seq<Action>, id: string, c: Counters, max: nat)
    requires Inv(s, id, c, max) && max >= 1 && Legal(s, run) && forall a :: a in run ==> Budgeted(a, id, max)
    ensures Inv(Exec(s, run), id, CountedOver(s, run, id, c), max) && |Exec(s, run).workers| == |s.workers|
    decreases |run|
  {
    if run != [] {
      assert run[0] in run;
      if run[0].Operate? {
        OperatorKeepsInv(s, run[0], id, c, max);
      } else {
        WorkerKeepsInv(s, run[0], id, c, max);
      }
      RunKeepsInv(Do(s, run[0]), run[1..], id, Counted(s, run[0], id, c), max);
    }
  }

  lemma StartInv(n: nat, id: string, max: nat)
    ensures Inv(Start(n), id, NOTHING, max)
  {
    SumBound(Start(n).workers, (w: Worker) => Waiting(w, id), 0);
    SumBound(Start(n).workers, (w: Worker) => Bit(Ready(w, id)), 0);
  }

  /**
   * In every interleaving of n workers on stale copies with the rest of the application, crashes and lost
   * settlements included: an entry is sent at most as often as it was taken, and taken at most max - 1 + n times for
   * each whole budget it was granted, plus once for each time it was fetched stuck. On its first budget it is taken
   * no more often than its row counts attempts.
   */
  lemma SendsAreBounded(n: nat, run: seq<Action>, id: string, max: nat)
    requires max >= 1 && Legal(Start(n), run) && forall a :: a in run ==> Budgeted(a, id, max)
    ensures var end, c := Exec(Start(n), run), CountedOver(Start(n), run, id, NOTHING);
      && c.sends <= c.takes <= Allowance(max, n, c.grants) + c.reclaims
      && (id in end.table && c.grants <= 1 ==> c.takes <= end.table[id].attempts)
  {
    StartInv(n, id, max);
    RunKeepsInv(Start(n), run, id, NOTHING, max);
  }

  /** With a single worker, no reset and no stuck row, an entry is never sent more often than its maximum. */
  lemma OneWorkerKeepsBudget(run: seq<Action>, id: string, max: nat)
    requires max >= 1 && Legal(Start(1), run) && forall a :: a in run ==> Budgeted(a, id, max)
    ensures var c := CountedOver(Start(1), run, id, NOTHING); c.grants <= 1 && c.reclaims == 0 ==> c.sends <= max
  {
    SendsAreBounded(1, run, id, max);
    assert Allowance(max, 1, 0) == 0;
  }

  /** What a worker's settlement leaves in the queue: nothing of what was delivered or withdrawn, else a failure. */
  lemma SettlesAsAnswered(s: State, a: Action)
    requires Enabled(s, a) && (a.Settle? || a.Withdraw?) && Head(s, a.w).id in s.table
    ensures var h, id, after := s.workers[a.w], Head(s, a.w).id, Do(s, a).table;
      && (forall other :: other != id ==> (other in after <==> other in s.table) && (other in after ==> after[other] == s.table[other]))
      && (id !in after <==> a.Withdraw? || h.phase == Delivered)
      && (id in after ==>
            && after[id].status == Failed && after[id].attempts == s.table[id].attempts
            && after[id].nextRetry == (if h.phase == Refused(true) || h.batch[0].row.attempts + 1 >= h.batch[0].row.maxAttempts
                                       then None else Some(a.retryAt)))
  {
  }

  // ---- how many hands --------------------------------------------------------------------------

  /** Nobody can take the row without risk. */
  predicate Closed(t: Table, id: string) { id !in t || t[id].status.Processing? }

  ghost predicate HandsInv(s: State, id: string, c: Counters) {
    AllOk(s, id) && InHand(s, id) <= Bit(Closed(s.table, id)) + c.risks
  }

  /** A worker that gets the entry in hand closes the row or counts a risk; one that lets it go may open the row. */
  lemma ClosedAfter(s: State, a: Action, id: string, c: Counters)
    requires Enabled(s, a) && !a.Operate?
    ensures Bit(Keeps(Do(s, a).workers[a.w], id)) + Bit(Closed(s.table, id)) + c.risks
         <= Bit(Keeps(s.workers[a.w], id)) + Bit(Closed(Do(s, a).table, id)) + Counted(s, a, id, c).risks
  {
    match a
    case Postpone(w, at, now) => StepRow(s.table, SetNextRetry(Head(s, w).id, at), now, id);
    case Take(w, now) => StepRow(s.table, MarkAsProcessing(Head(s, w).id), now, id);
    case Withdraw(w, now) => StepRow(s.table, MarkAsSent(Head(s, w).id), now, id);
    case Settle(w, retryAt, now) => StepRow(s.table, Settlement(s.workers[w], retryAt), now, id);
    case _ =>
  }

  lemma WorkerKeepsHands(s: State, a: Action, id: string, c: Counters)
    requires HandsInv(s, id, c) && Enabled(s, a) && !a.Operate?
    ensures HandsInv(Do(s, a), id, Counted(s, a, id, c))
  {
    SumsAfter(s, a, id);
    HolderAfter(s, a, id, c);
    ClosedAfter(s, a, id, c);
  }

  lemma {:induction false} RunKeepsHands(s: State, run: seq<Action>, id: string, c: Counters)
    requires HandsInv(s, id, c) && Legal(s, run)
    ensures HandsInv(Exec(s, run), id, CountedOver(s, run, id, c))
    decreases |run|
  {
    if run != [] {
      if !run[0].Operate? {
        WorkerKeepsHands(s, run[0], id, c);
      }
      RunKeepsHands(Do(s, run[0]), run[1..], id, Counted(s, run[0], id, c));
    }
  }

  /**
   * In every interleaving, the workers that have taken an entry and not settled it are at most one more than the
   * times a stuck row was taken, a row was postponed while in processing, or the id was inserted again while in hand.
   */
  lemma HandsAreBounded(n: nat, run: seq<Action>, id: string)
    requires Legal(Start(n), run)
    ensures InHand(Exec(Start(n), run), id) <= 1 + CountedOver(Start(n), run, id, NOTHING).risks
  {
    SumBound(Start(n).workers, (w: Worker) => Bit(Keeps(w, id)), 0);
    RunKeepsHands(Start(n), run, id, NOTHING);
  }
}
