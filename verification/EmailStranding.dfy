/** When the bounds are reached, and when an entry in flight gets stuck for good: runs of several workers, and of one. */
module EmailStranding {
  import opened Sql
  import opened Tally
  import opened EmailQueue
  import opened EmailQueueLife
  import opened EmailWorkers
  import opened EmailWorkerBounds

  // ---- runs built step by step -----------------------------------------------------------------

  /** Entries come in with attempts left, at most `max` of them. */
  predicate Fresh(a: Action, id: string, max: nat) {
    a.Operate? && a.op.Enqueue? && id in a.op.entries ==>
      0 <= a.op.entries[id].attempts < Inserted(a.op.entries[id], a.now).maxAttempts <= max
  }

  datatype Path = Path(run: seq<Action>, end: State, counters: Counters)

  ghost predicate Runs(n: nat, p: Path, id: string, max: nat) {
    && Legal(Start(n), p.run) && p.end == Exec(Start(n), p.run) && p.counters == CountedOver(Start(n), p.run, id, NOTHING)
    && |p.end.workers| == n
    && forall a :: a in p.run ==> Fresh(a, id, max)
  }

  lemma {:induction false} Snoc(s: State, run: seq<Action>, a: Action, id: string, c: Counters)
    requires Legal(s, run) && Enabled(Exec(s, run), a)
    ensures Legal(s, run + [a]) && Exec(s, run + [a]) == Do(Exec(s, run), a)
    ensures CountedOver(s, run + [a], id, c) == Counted(Exec(s, run), a, id, CountedOver(s, run, id, c))
    decreases |run|
  {
    if run == [] {
      assert run + [a] == [a] && [a][1..] == [];
    } else {
      assert (run + [a])[1..] == run[1..] + [a];
      Snoc(Do(s, run[0]), run[1..], a, id, Counted(s, run[0], id, c));
    }
  }

  lemma Extend(n: nat, p: Path, a: Action, id: string, max: nat) returns (q: Path)
    requires Runs(n, p, id, max) && Enabled(p.end, a) && Fresh(a, id, max)
    ensures Runs(n, q, id, max) && q.end == Do(p.end, a) && q.counters == Counted(p.end, a, id, p.counters)
  {
    Snoc(Start(n), p.run, a, id, NOTHING);
    q := Path(p.run + [a], Do(p.end, a), Counted(p.end, a, id, p.counters));
  }

  /** A worker with the entry as its only copy. */
  function Holding(id: string, row: Row, phase: Phase): Worker { Worker([Copy(id, row)], phase) }

  lemma FetchOne(n: nat, p: Path, w: nat, now: int, id: string, max: nat) returns (q: Path)
    requires Runs(n, p, id, max) && w < n && p.end.workers[w] == IDLE && id in p.end.table
    requires Fetchable(p.end.table[id], now)
    ensures Runs(n, q, id, max)
    ensures q.end == State(p.end.table, p.end.workers[w := Holding(id, p.end.table[id], Before)])
    ensures q.counters == p.counters.(reclaims := p.counters.reclaims + Bit(InProgress(p.end.table, id)))
  {
    var a := Fetch(w, [id], now);
    q := Extend(n, p, a, id, max);
    assert q.end.workers[w].batch == [Copy(id, p.end.table[id])];
  }

  /** Takes the entry and has it refused. */
  lemma TakeOne(n: nat, p: Path, w: nat, row: Row, id: string, max: nat) returns (q: Path)
    requires Runs(n, p, id, max) && w < n && p.end.workers[w] == Holding(id, row, Before) && id in p.end.table
    requires p.end.table[id].status.Pending? || p.end.table[id].status.Failed?
    ensures Runs(n, q, id, max) && q.end.workers == p.end.workers[w := Holding(id, row, Taken)]
    ensures id in q.end.table && q.end.table[id] == Changed(MarkAsProcessing(id), p.end.table[id], 0)
    ensures q.counters == p.counters.(takes := p.counters.takes + 1)
  {
    StepRow(p.end.table, MarkAsProcessing(id), 0, id);
    q := Extend(n, p, Take(w, 0), id, max);
  }

  lemma RefuseOne(n: nat, p: Path, w: nat, row: Row, id: string, max: nat) returns (q: Path)
    requires Runs(n, p, id, max) && w < n && p.end.workers[w] == Holding(id, row, Taken) && id in p.end.table
    ensures Runs(n, q, id, max) && q.end.workers == p.end.workers[w := IDLE]
    ensures id in q.end.table && q.end.table[id].status.Failed?
    ensures q.end.table[id].attempts == p.end.table[id].attempts && q.end.table[id].maxAttempts == p.end.table[id].maxAttempts
    ensures q.end.table[id].nextRetry == if row.attempts + 1 >= row.maxAttempts then None else Some(0)
    ensures q.counters == p.counters.(sends := p.counters.sends + 1)
  {
    var mid := Extend(n, p, Send(w, Refused(false)), id, max);
    var h := mid.end.workers[w];
    assert h == Holding(id, row, Refused(false)) && h.batch[1..] == [];
    StepRow(mid.end.table, Settlement(h, 0), 0, id);
    q := Extend(n, mid, Settle(w, 0, 0), id, max);
  }

  /** One round of a worker that holds a copy: the mail goes out, is refused, and the copy decides what follows. */
  lemma Turn(n: nat, p: Path, w: nat, row: Row, id: string, max: nat) returns (q: Path)
    requires Runs(n, p, id, max) && w < n && p.end.workers[w] == Holding(id, row, Before) && id in p.end.table
    requires p.end.table[id].status.Pending? || p.end.table[id].status.Failed?
    ensures Runs(n, q, id, max) && q.end.workers == p.end.workers[w := IDLE]
    ensures id in q.end.table && q.end.table[id].status.Failed?
    ensures q.end.table[id].attempts == p.end.table[id].attempts + 1
    ensures q.end.table[id].maxAttempts == p.end.table[id].maxAttempts
    ensures q.end.table[id].nextRetry == if row.attempts + 1 >= row.maxAttempts then None else Some(0)
    ensures q.counters == p.counters.(takes := p.counters.takes + 1, sends := p.counters.sends + 1)
  {
    var mid := TakeOne(n, p, w, row, id, max);
    q := RefuseOne(n, mid, w, row, id, max);
    assert p.end.workers[w := Holding(id, row, Taken)][w := IDLE] == p.end.workers[w := IDLE];
  }

  /** The entry is in the queue with `k` attempts of `max`, due, and nobody holds anything. */
  predicate Due(s: State, id: string, k: nat, max: nat) {
    && id in s.table && s.table[id].attempts == k && s.table[id].maxAttempts == max && Fetchable(s.table[id], 0)
    && (s.table[id].status.Pending? || s.table[id].status.Failed?)
    && forall w :: 0 <= w < |s.workers| ==> s.workers[w] == IDLE
  }

  lemma Insert(n: nat, id: string, row: Row, max: nat) returns (q: Path)
    requires max >= 1 && row.status == Pending && row.attempts == 0 && row.maxAttempts == max
    ensures Runs(n, q, id, max) && Due(q.end, id, 0, max) && q.counters == Counters(0, 0, 0, 1, 0, 0)
  {
    SumBound(Start(n).workers, (w: Worker) => Bit(Keeps(w, id)), 0);
    var a := Operate(Enqueue(map[id := row]), 0);
    StepRow(Start(n).table, a.op, 0, id);
    q := Extend(n, Path([], Start(n), NOTHING), a, id, max);
  }

  /** By one worker alone, to `k` attempts. */
  lemma {:induction false} Rounds(n: nat, id: string, row: Row, k: nat, max: nat) returns (q: Path)
    requires n >= 1 && k < max && row.status == Pending && row.attempts == 0 && row.maxAttempts == max
    ensures Runs(n, q, id, max) && Due(q.end, id, k, max) && q.counters == Counters(k, k, 0, 1, 0, 0)
  {
    if k == 0 {
      q := Insert(n, id, row, max);
    } else {
      var p := Rounds(n, id, row, k - 1, max);
      var mid := FetchOne(n, p, 0, 0, id, max);
      q := Turn(n, mid, 0, p.end.table[id], id, max);
    }
  }

  // ---- the bound on sends is reached -----------------------------------------------------------

  lemma {:induction false} AllFetch(n: nat, p: Path, k: nat, id: string, max: nat) returns (q: Path)
    requires Runs(n, p, id, max) && id in p.end.table && Fetchable(p.end.table[id], 0) && k <= n
    requires !p.end.table[id].status.Processing?
    requires forall w :: 0 <= w < k ==> p.end.workers[w] == IDLE
    ensures Runs(n, q, id, max) && q.end.table == p.end.table && q.counters == p.counters
    ensures forall w :: 0 <= w < n ==>
      q.end.workers[w] == if w < k then Holding(id, p.end.table[id], Before) else p.end.workers[w]
    decreases k
  {
    if k == 0 {
      q := p;
    } else {
      var mid := FetchOne(n, p, k - 1, 0, id, max);
      q := AllFetch(n, mid, k - 1, id, max);
    }
  }

  lemma {:induction false} AllSend(n: nat, p: Path, k: nat, row: Row, id: string, max: nat) returns (q: Path)
    requires Runs(n, p, id, max) && id in p.end.table && k <= n
    requires p.end.table[id].status.Pending? || p.end.table[id].status.Failed?
    requires forall w :: 0 <= w < k ==> p.end.workers[w] == Holding(id, row, Before)
    ensures Runs(n, q, id, max)
    ensures q.counters == p.counters.(takes := p.counters.takes + k, sends := p.counters.sends + k)
    decreases k
  {
    if k == 0 {
      q := p;
    } else {
      var mid := Turn(n, p, k - 1, row, id, max);
      q := AllSend(n, mid, k - 1, row, id, max);
    }
  }

  /**
   * The bound on sends is exact: n workers can send an entry of `max` attempts max - 1 + n times on its one budget,
   * with no stuck row: a take looks neither at the attempts nor at whether the row was given up on in the meantime.
   */
  lemma SendsReachTheBound(n: nat, id: string, row: Row, max: nat) returns (p: Path)
    requires n >= 1 && max >= 1 && row.status == Pending && row.attempts == 0 && row.maxAttempts == max
    ensures Runs(n, p, id, max)
    ensures p.counters.sends == max - 1 + n && p.counters.grants == 1 && p.counters.reclaims == 0
  {
    p := Rounds(n, id, row, max - 1, max);
    var held := p.end.table[id];
    p := AllFetch(n, p, n, id, max);
    p := AllSend(n, p, n, held, id, max);
  }

  // ---- two hands -------------------------------------------------------------------------------

  /** What a worker does with its copy when the circuit is open. */
  lemma PostponeOne(n: nat, p: Path, w: nat, row: Row, id: string, max: nat) returns (q: Path)
    requires Runs(n, p, id, max) && w < n && p.end.workers[w] == Holding(id, row, Before) && id in p.end.table
    ensures Runs(n, q, id, max) && q.end.workers == p.end.workers[w := IDLE] && id in q.end.table
    ensures !p.end.table[id].status.Paused? ==> q.end.table[id] == Changed(SetNextRetry(id, 0), p.end.table[id], 0)
    ensures q.counters == p.counters.(risks := p.counters.risks + Bit(InProgress(p.end.table, id)))
  {
    StepRow(p.end.table, SetNextRetry(id, 0), 0, id);
    assert p.end.workers[w].batch[1..] == [];
    q := Extend(n, p, Postpone(w, 0, 0), id, max);
  }

  /** An entry postponed while it is being sent is taken by a second worker: the mail is on its way twice at once. */
  lemma PostponedIsTakenTwice(n: nat, id: string, row: Row, max: nat) returns (p: Path)
    requires n >= 2 && max >= 2 && row.status == Pending && row.attempts == 0 && row.maxAttempts == max
    ensures Runs(n, p, id, max) && p.counters.grants == 1 && p.counters.reclaims == 0
    ensures Ready(p.end.workers[0], id) && Ready(p.end.workers[1], id)
  {
    p := Insert(n, id, row, max);
    var held := p.end.table[id];
    p := FetchOne(n, p, 0, 0, id, max);
    p := FetchOne(n, p, 1, 0, id, max);
    p := TakeOne(n, p, 0, held, id, max);
    p := PostponeOne(n, p, 1, held, id, max);
    held := p.end.table[id];
    p := FetchOne(n, p, 1, 0, id, max);
    p := TakeOne(n, p, 1, held, id, max);
  }

  // ---- stranded --------------------------------------------------------------------------------

  /** Both fetch the last attempt; one uses it up and gives up, the other finds the circuit open and postpones. */
  lemma PostponedAfterTheLastAttempt(n: nat, id: string, row: Row, max: nat) returns (p: Path)
    requires n >= 2 && max >= 1 && row.status == Pending && row.attempts == 0 && row.maxAttempts == max
    ensures Runs(n, p, id, max) && p.counters.grants == 1 && p.counters.reclaims == 0
    ensures id in p.end.table && Stranded(p.end.table[id]) && p.end.table[id].status.Pending?
  {
    p := Rounds(n, id, row, max - 1, max);
    var held := p.end.table[id];
    p := FetchOne(n, p, 0, 0, id, max);
    p := FetchOne(n, p, 1, 0, id, max);
    p := Turn(n, p, 0, held, id, max);
    p := PostponeOne(n, p, 1, held, id, max);
  }

  /** Both fetch with two attempts left and use both up; the second, counting from its copy, asks for a retry. */
  lemma RetriedFromAStaleCount(n: nat, id: string, row: Row, max: nat) returns (p: Path)
    requires n >= 2 && max >= 2 && row.status == Pending && row.attempts == 0 && row.maxAttempts == max
    ensures Runs(n, p, id, max) && p.counters.grants == 1 && p.counters.reclaims == 0
    ensures id in p.end.table && Stranded(p.end.table[id]) && p.end.table[id].status.Failed?
  {
    p := Rounds(n, id, row, max - 2, max);
    var held := p.end.table[id];
    p := FetchOne(n, p, 0, 0, id, max);
    p := FetchOne(n, p, 1, 0, id, max);
    p := Turn(n, p, 0, held, id, max);
    p := Turn(n, p, 1, held, id, max);
  }

  /** One worker is enough once a row is stuck: it dies on the last attempt, fetches the row again, and postpones it. */
  lemma PostponedAfterACrash(n: nat, id: string, row: Row, max: nat) returns (p: Path)
    requires n >= 1 && max >= 1 && row.status == Pending && row.attempts == 0 && row.maxAttempts == max
    ensures Runs(n, p, id, max) && p.counters.grants == 1 && p.counters.reclaims == 1
    ensures id in p.end.table && Stranded(p.end.table[id])
  {
    p := Rounds(n, id, row, max - 1, max);
    p := FetchOne(n, p, 0, 0, id, max);
    p := TakeOne(n, p, 0, p.end.workers[0].batch[0].row, id, max);
    p := Extend(n, p, Crash(0), id, max);
    p := FetchOne(n, p, 0, STUCK_SECONDS + 1, id, max);
    p := PostponeOne(n, p, 0, p.end.table[id], id, max);
  }

  // ---- never with one worker and no stuck row --------------------------------------------------

  predicate HasLeft(row: Row) { row.status.Processing? || GivenUp(row) || !Spent(row) }

  /** The copy of the only worker says what the row says, up to the attempt in progress. */
  predicate Current(w: Worker, t: Table, id: string) {
    forall i :: 0 <= i < |w.batch| && w.batch[i].id == id && id in t ==>
      && t[id].maxAttempts == w.batch[i].row.maxAttempts
      && if i == 0 && w.phase != Before
         then t[id].status.Processing? && t[id].attempts == w.batch[i].row.attempts + 1
         else !t[id].status.Processing? && !GivenUp(t[id]) && t[id].attempts == w.batch[i].row.attempts
  }

  predicate Single(s: State, id: string, c: Counters) {
    && (id in s.table ==> c.grants >= 1 && HasLeft(s.table[id]))
    && forall w :: 0 <= w < |s.workers| ==>
         && (forall i, j :: 0 <= i < j < |s.workers[w].batch| ==> s.workers[w].batch[i].id != s.workers[w].batch[j].id)
         && Current(s.workers[w], s.table, id)
         && (c.grants == 0 ==> forall i :: 0 <= i < |s.workers[w].batch| ==> s.workers[w].batch[i].id != id)
  }

  predicate Beyond(c: Counters) { c.grants >= 2 || c.reclaims >= 1 }

  lemma TakeKeepsSingle(s: State, a: Action, id: string, c: Counters)
    requires |s.workers| <= 1 && Enabled(s, a) && a.Take? && Single(s, id, c)
    ensures Beyond(Counted(s, a, id, c)) || Single(Do(s, a), id, Counted(s, a, id, c))
  {
    StepRow(s.table, MarkAsProcessing(Head(s, a.w).id), a.now, id);
    assert a.w == 0;
  }

  lemma PostponeKeepsSingle(s: State, a: Action, id: string, c: Counters)
    requires |s.workers| <= 1 && Enabled(s, a) && a.Postpone? && Single(s, id, c)
    ensures Beyond(Counted(s, a, id, c)) || Single(Do(s, a), id, Counted(s, a, id, c))
  {
    StepRow(s.table, SetNextRetry(Head(s, a.w).id, a.at), a.now, id);
    assert a.w == 0;
  }

  lemma SettleKeepsSingle(s: State, a: Action, id: string, c: Counters)
    requires |s.workers| <= 1 && Enabled(s, a) && a.Settle? && Single(s, id, c)
    ensures Beyond(Counted(s, a, id, c)) || Single(Do(s, a), id, Counted(s, a, id, c))
  {
    StepRow(s.table, Settlement(s.workers[a.w], a.retryAt), a.now, id);
    assert a.w == 0;
  }

  lemma WithdrawKeepsSingle(s: State, a: Action, id: string, c: Counters)
    requires |s.workers| <= 1 && Enabled(s, a) && a.Withdraw? && Single(s, id, c)
    ensures Beyond(Counted(s, a, id, c)) || Single(Do(s, a), id, Counted(s, a, id, c))
  {
    StepRow(s.table, MarkAsSent(Head(s, a.w).id), a.now, id);
    assert a.w == 0;
  }

  lemma WorkerKeepsSingle(s: State, a: Action, id: string, c: Counters)
    requires |s.workers| <= 1 && Enabled(s, a) && !a.Operate? && Single(s, id, c)
    ensures Beyond(Counted(s, a, id, c)) || Single(Do(s, a), id, Counted(s, a, id, c))
  {
    match a
    case Postpone(_, _, _) => PostponeKeepsSingle(s, a, id, c);
    case Take(_, _) => TakeKeepsSingle(s, a, id, c);
    case Withdraw(_, _) => WithdrawKeepsSingle(s, a, id, c);
    case Settle(_, _, _) => SettleKeepsSingle(s, a, id, c);
    case _ =>
  }

  lemma OperatorKeepsSingle(s: State, a: Action, id: string, c: Counters, max: nat)
    requires |s.workers| <= 1 && Enabled(s, a) && a.Operate? && Single(s, id, c) && Fresh(a, id, max)
    ensures Beyond(Counted(s, a, id, c)) || Single(Do(s, a), id, Counted(s, a, id, c))
  {
    StepRow(s.table, a.op, a.now, id);
  }

  lemma {:induction false} RunKeepsSingle(s: State, run: seq<Action>, id: string, c: Counters, max: nat)
    requires |s.workers| <= 1 && Legal(s, run) && (Beyond(c) || Single(s, id, c))
    requires forall a :: a in run ==> Fresh(a, id, max)
    ensures var c' := CountedOver(s, run, id, c); Beyond(c') || Single(Exec(s, run), id, c')
    decreases |run|
  {
    if run != [] {
      assert run[0] in run;
      if !Beyond(c) {
        if run[0].Operate? {
          OperatorKeepsSingle(s, run[0], id, c, max);
        } else {
          WorkerKeepsSingle(s, run[0], id, c);
        }
      }
      RunKeepsSingle(Do(s, run[0]), run[1..], id, Counted(s, run[0], id, c), max);
    }
  }

  ghost predicate CanStrand(n: nat, id: string, max: nat) {
    exists p: Path :: Runs(n, p, id, max) && p.counters.grants <= 1 && p.counters.reclaims == 0
                      && id in p.end.table && Stranded(p.end.table[id])
  }

  /**
   * An entry that comes in once with attempts left, is not reset, and is never fetched stuck can be stranded exactly
   * when there is more than one worker; `PostponedAfterACrash` is one worker and a stuck row.
   */
  lemma StrandsExactlyWhen(n: nat, id: string, max: nat)
    requires max >= 1
    ensures CanStrand(n, id, max) <==> n >= 2
  {
    if n >= 2 {
      var row := Row(Source("broadcast", ""), "", "", Pending, 0, max, None, None, None, 0);
      var p := PostponedAfterTheLastAttempt(n, id, row, max);
    } else if CanStrand(n, id, max) {
      var p: Path :| Runs(n, p, id, max) && p.counters.grants <= 1 && p.counters.reclaims == 0
                     && id in p.end.table && Stranded(p.end.table[id]);
      RunKeepsSingle(Start(n), p.run, id, NOTHING, max);
      assert false;
    }
  }
}
