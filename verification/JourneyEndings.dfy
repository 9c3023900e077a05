/** The accounting of end events over every run, and whose copies executors work on. */
module JourneyEndings {
  import opened Sql
  import opened Tally
  import opened Journeys

  // ---- counting steps --------------------------------------------------------------------------

  /** What a step can have to do with the end of a journey. */
  datatype Part =
    | EarlyEnding // comes to an ending outside a node's result, and announces it
    | EarlyWrite  // stores such an ending
    | EarlyLoss   // fails to store such an ending
    | ResultWrite // stores the ending a node resulted in, and announces it
    | SilentWrite // stores the ending a node resulted in with a retry, and announces nothing

  predicate Has(s: State, a: Action, id: string, part: Part)
    requires Enabled(s, a)
  {
    match part
    case EarlyEnding =>
      (a.Compute? && s.executors[a.i].id == id && AnnouncesEarly(s.executors[a.i].copy, a.outcome))
      || (a.WriteFails? && s.executors[a.i].id == id && s.executors[a.i].stage.FromResult?
          && AnnouncesEarly(s.executors[a.i].copy, Error(a.text, a.retryAt)))
    case EarlyWrite => StoresEnding(s, a, id, Told)
    case EarlyLoss =>
      (a.WriteFails? && EarlyPending(s.executors[a.i], id))
      || (a.Write? && EarlyPending(s.executors[a.i], id) && (id !in s.journeys || Ended(s, id)))
    case ResultWrite => StoresEnding(s, a, id, FromResult)
    case SilentWrite => StoresEnding(s, a, id, Untold)
  }

  predicate StoresEnding(s: State, a: Action, id: string, stage: Stage)
    requires Enabled(s, a)
  {
    a.Write? && s.executors[a.i].id == id && s.executors[a.i].stage == stage && !s.executors[a.i].copy.status.Active?
    && id in s.journeys && !Ended(s, id)
  }

  /** The executor has announced an ending it has not yet tried to store. */
  predicate EarlyPending(e: Executor, id: string) { e.Writing? && e.id == id && e.stage.Told? }

  function Times(s: State, run: seq<Action>, id: string, part: Part): nat
    requires Legal(s, run)
    decreases |run|
  {
    if run == [] then 0 else Bit(Has(s, run[0], id, part)) + Times(Do(s, run[0]), run[1..], id, part)
  }

  function Announced(log: seq<Ending>, id: string): nat { Sum(log, (x: Ending) => Bit(x.id == id)) }

  function Pending(s: State, id: string): nat { Sum(s.executors, (e: Executor) => Bit(EarlyPending(e, id))) }

  lemma {:induction false} SumSnoc<T>(xs: seq<T>, x: T, f: T -> nat)
    ensures Sum(xs + [x], f) == Sum(xs, f) + f(x)
  {
    if xs == [] {
      assert xs + [x] == [x] && [x][1..] == [];
    } else {
      assert (xs + [x])[1..] == xs[1..] + [x];
      SumSnoc(xs[1..], x, f);
    }
  }

  /** Copies being worked on are active, what is told has ended, and failures are told. */
  predicate ExecutorOk(e: Executor) {
    && (e.Working? ==> e.copy.status.Active?)
    && (e.Writing? && e.stage.Told? ==> !e.copy.status.Active?)
    && (e.Writing? && !e.stage.Told? ==> e.copy.status != Failed)
  }

  predicate AllOk(s: State) { forall i :: 0 <= i < |s.executors| ==> ExecutorOk(s.executors[i]) }

  lemma DoKeepsOk(s: State, a: Action)
    requires AllOk(s) && Enabled(s, a)
    ensures AllOk(Do(s, a))
  {
  }

  // ---- one step --------------------------------------------------------------------------------

  lemma AnnouncedAfter(s: State, a: Action, id: string)
    requires AllOk(s) && Enabled(s, a)
    ensures Announced(Do(s, a).announced, id)
         == Announced(s.announced, id) + Bit(Has(s, a, id, EarlyEnding)) + Bit(Has(s, a, id, ResultWrite))
  {
    var s', f := Do(s, a), (x: Ending) => Bit(x.id == id);
    if (a.Compute? || a.WriteFails?) && |s'.announced| > |s.announced| {
      SumSnoc(s.announced, EndingOf(s.executors[a.i].id, s'.executors[a.i].copy), f);
    } else if a.Write? && |s'.announced| > |s.announced| {
      SumSnoc(s.announced, EndingOf(s.executors[a.i].id, s.executors[a.i].copy), f);
    }
  }

  lemma PendingAfter(s: State, a: Action, id: string)
    requires AllOk(s) && Enabled(s, a)
    ensures Pending(Do(s, a), id) + Bit(Has(s, a, id, EarlyWrite)) + Bit(Has(s, a, id, EarlyLoss))
         == Pending(s, id) + Bit(Has(s, a, id, EarlyEnding))
  {
    var s', f := Do(s, a), (e: Executor) => Bit(EarlyPending(e, id));
    if a.Fetch? || a.Compute? || a.Write? || a.WriteFails? || a.Skip? {
      assert s'.executors == s.executors[a.i := s'.executors[a.i]];
      SumUpdate(s.executors, f, a.i, s'.executors[a.i]);
    }
  }

  // ---- over runs -------------------------------------------------------------------------------

  /**
   * Over every run the announcements of a journey are its early endings plus the one a node resulted in, and every
   * early ending was stored, lost, or is still to be written.
   */
  lemma {:induction false} Accounting(s: State, run: seq<Action>, id: string)
    requires AllOk(s) && Legal(s, run)
    ensures var end := Exec(s, run);
      && Announced(end.announced, id)
         == Announced(s.announced, id) + Times(s, run, id, EarlyEnding) + Times(s, run, id, ResultWrite)
      && Times(s, run, id, EarlyWrite) + Times(s, run, id, EarlyLoss) + Pending(end, id)
         == Pending(s, id) + Times(s, run, id, EarlyEnding)
    decreases |run|
  {
    if run != [] {
      DoKeepsOk(s, run[0]);
      AnnouncedAfter(s, run[0], id);
      PendingAfter(s, run[0], id);
      Accounting(Do(s, run[0]), run[1..], id);
    }
  }

  function Stores(s: State, run: seq<Action>, id: string): nat
    requires Legal(s, run)
  {
    Times(s, run, id, EarlyWrite) + Times(s, run, id, ResultWrite) + Times(s, run, id, SilentWrite)
  }

  /** At most one tick stores an ending. */
  lemma {:induction false} OneStore(s: State, run: seq<Action>, id: string)
    requires Legal(s, run)
    ensures Ended(s, id) ==> Stores(s, run, id) == 0
    ensures Stores(s, run, id) <= 1
    decreases |run|
  {
    if run != [] {
      OneStore(Do(s, run[0]), run[1..], id);
    }
  }

  // ---- truthful announcements ------------------------------------------------------------------

  /** The announcement says what the row says. */
  predicate Matches(s: State, x: Ending) {
    Ended(s, x.id) && s.journeys[x.id].status == x.status && s.journeys[x.id].exitReason == x.reason
  }

  predicate Promised(s: State, x: Ending) {
    exists i :: 0 <= i < |s.executors| && EarlyPending(s.executors[i], x.id) && x == EndingOf(x.id, s.executors[i].copy)
  }

  /** Every announcement is stored, or about to be. */
  predicate Kept(s: State, id: string) {
    forall x :: x in s.announced && x.id == id ==> Matches(s, x) || Promised(s, x)
  }

  lemma PromiseSurvives(s: State, a: Action, x: Ending)
    requires AllOk(s) && Enabled(s, a) && !Has(s, a, x.id, EarlyLoss) && (Matches(s, x) || Promised(s, x))
    ensures Matches(Do(s, a), x) || Promised(Do(s, a), x)
  {
    var s' := Do(s, a);
    if !Matches(s, x) {
      var i :| 0 <= i < |s.executors| && EarlyPending(s.executors[i], x.id) && x == EndingOf(x.id, s.executors[i].copy);
      if a.Write? && a.i == i {
        assert Matches(s', x);
      } else {
        assert s'.executors[i] == s.executors[i];
      }
    }
  }

  lemma NewsIsKept(s: State, a: Action, x: Ending)
    requires AllOk(s) && Enabled(s, a) && x in Do(s, a).announced && x !in s.announced
    ensures Matches(Do(s, a), x) || Promised(Do(s, a), x)
  {
    var s' := Do(s, a);
    assert s'.announced == s.announced + [x];
    if a.Compute? || a.WriteFails? {
      assert EarlyPending(s'.executors[a.i], x.id);
    } else {
      assert Matches(s', x);
    }
  }

  lemma {:induction false} NoLossKeeps(s: State, run: seq<Action>, id: string)
    requires AllOk(s) && Legal(s, run) && Kept(s, id) && Times(s, run, id, EarlyLoss) == 0
    ensures Kept(Exec(s, run), id)
    decreases |run|
  {
    if run != [] {
      var s' := Do(s, run[0]);
      DoKeepsOk(s, run[0]);
      forall x | x in s'.announced && x.id == id ensures Matches(s', x) || Promised(s', x) {
        if x in s.announced {
          PromiseSurvives(s, run[0], x);
        } else {
          NewsIsKept(s, run[0], x);
        }
      }
      NoLossKeeps(s', run[1..], id);
    }
  }

  lemma PendingCounts(s: State, id: string)
    requires Pending(s, id) == 0
    ensures forall i :: 0 <= i < |s.executors| ==> !EarlyPending(s.executors[i], id)
  {
    SumPositive(s.executors, (e: Executor) => Bit(EarlyPending(e, id)));
  }

  // ---- endings nobody announced ----------------------------------------------------------------

  /** What a node resulted in, or a retry of it, gives no reason but that of a list entry; what is active gives none. */
  predicate PlainReason(j: Journey) {
    && (j.status.Active? || j.status.Completed? ==> j.exitReason.None?)
    && (j.status.Exited? && j.exitReason.Some? ==> j.exitReason.value in LIST_REASONS)
  }

  predicate UntoldCopy(e: Executor, id: string) { !e.Idle? && e.id == id && !EarlyPending(e, id) }

  /** The reasons of the journey's row while it is active, and of the copies of it whose ending is not told. */
  predicate Plain(s: State, id: string) {
    && (id in s.journeys && s.journeys[id].status.Active? ==> PlainReason(s.journeys[id]))
    && forall i :: 0 <= i < |s.executors| && UntoldCopy(s.executors[i], id) ==> PlainReason(s.executors[i].copy)
  }

  lemma AdvanceStaysPlain(e: Executor, outcome: Outcome, now: int)
    requires !e.Idle? && PlainReason(e.copy)
    requires (e.Working? && e.copy.status.Active? && Possible(e, outcome)) || outcome.Error?
    ensures outcome.Result? || (outcome.Error? && !AnnouncesEarly(e.copy, outcome)) ==> PlainReason(Advance(e.copy, outcome, now))
  {
  }

  lemma DoKeepsPlain(s: State, a: Action, id: string)
    requires AllOk(s) && Enabled(s, a) && Plain(s, id)
    ensures Plain(Do(s, a), id)
  {
    if a.Compute? && s.executors[a.i].id == id {
      AdvanceStaysPlain(s.executors[a.i], a.outcome, a.now);
    } else if a.WriteFails? && s.executors[a.i].id == id && s.executors[a.i].stage.FromResult? {
      AdvanceStaysPlain(s.executors[a.i], Error(a.text, a.retryAt), 0);
    }
  }

  /** The row is active, or a reply, a deletion or a silent write has ended it. */
  predicate EndedUntold(s: State, id: string) {
    Ended(s, id) ==>
      (PlainReason(s.journeys[id]) && s.journeys[id].status != Failed)
      || (s.journeys[id].status.Exited? && s.journeys[id].exitReason in {Some(REPLIED), Some(AUTOMATION_DELETED)})
  }

  /** The announcements of the journey are all of endings outside a node's result. */
  predicate AnnouncedEarlyOnly(s: State, id: string) {
    forall x :: x in s.announced && x.id == id ==>
      x.status.Failed? || (x.status.Exited? && x.reason == Some(NODE_DELETED)) || (x.status.Completed? && x.reason == Some(COMPLETED))
  }

  lemma UntoldIsNotAnnounced(s: State, id: string)
    requires EndedUntold(s, id) && AnnouncedEarlyOnly(s, id)
    ensures forall x :: x in s.announced && x.id == id ==> !Matches(s, x)
  {
  }

  lemma {:induction false} NoToldStoreStaysUntold(s: State, run: seq<Action>, id: string)
    requires AllOk(s) && Plain(s, id) && Legal(s, run)
    requires Times(s, run, id, EarlyWrite) == 0 && Times(s, run, id, ResultWrite) == 0
    requires EndedUntold(s, id) && AnnouncedEarlyOnly(s, id)
    ensures EndedUntold(Exec(s, run), id) && AnnouncedEarlyOnly(Exec(s, run), id)
    decreases |run|
  {
    if run != [] {
      DoKeepsOk(s, run[0]);
      DoKeepsPlain(s, run[0], id);
      NoToldStoreStep(s, run[0], id);
      NoToldStoreStaysUntold(Do(s, run[0]), run[1..], id);
    }
  }

  lemma NoToldStoreStep(s: State, a: Action, id: string)
    requires AllOk(s) && Plain(s, id) && Enabled(s, a) && !Has(s, a, id, EarlyWrite) && !Has(s, a, id, ResultWrite)
    requires EndedUntold(s, id) && AnnouncedEarlyOnly(s, id)
    ensures EndedUntold(Do(s, a), id) && AnnouncedEarlyOnly(Do(s, a), id)
  {
    EarlyNews(s, a, id);
  }

  lemma EarlyNews(s: State, a: Action, id: string)
    requires AllOk(s) && Enabled(s, a) && !Has(s, a, id, ResultWrite) && AnnouncedEarlyOnly(s, id)
    ensures AnnouncedEarlyOnly(Do(s, a), id)
  {
    var s' := Do(s, a);
    forall x | x in s'.announced && x.id == id && x !in s.announced
      ensures x.status.Failed? || (x.status.Exited? && x.reason == Some(NODE_DELETED)) || (x.status.Completed? && x.reason == Some(COMPLETED))
    {
      assert s'.announced == s.announced + [x];
    }
  }

  // ---- endings stored after they were told -----------------------------------------------------

  /** What is pending has been announced. */
  predicate PendingTold(s: State, id: string) {
    forall i :: 0 <= i < |s.executors| && EarlyPending(s.executors[i], id) ==> EndingOf(id, s.executors[i].copy) in s.announced
  }

  lemma AnnouncedGrows(s: State, a: Action, id: string)
    requires Enabled(s, a) && PendingTold(s, id)
    ensures PendingTold(Do(s, a), id) && forall x :: x in s.announced ==> x in Do(s, a).announced
  {
  }

  predicate ToldAsStored(s: State, id: string) { exists x :: x in s.announced && x.id == id && Matches(s, x) }

  lemma ToldStoreIsTold(s: State, a: Action, id: string)
    requires AllOk(s) && Enabled(s, a) && PendingTold(s, id)
    ensures ToldAsStored(s, id) || Has(s, a, id, EarlyWrite) || Has(s, a, id, ResultWrite) ==> ToldAsStored(Do(s, a), id)
  {
    AnnouncedGrows(s, a, id);
    if x :| x in s.announced && x.id == id && Matches(s, x) {
      assert Matches(Do(s, a), x);
    } else if Has(s, a, id, EarlyWrite) || Has(s, a, id, ResultWrite) {
      var x := EndingOf(id, s.executors[a.i].copy);
      assert x in Do(s, a).announced && Matches(Do(s, a), x);
    }
  }

  lemma {:induction false} ToldStoresStayTold(s: State, run: seq<Action>, id: string)
    requires AllOk(s) && Legal(s, run) && PendingTold(s, id)
    requires ToldAsStored(s, id) || Times(s, run, id, EarlyWrite) + Times(s, run, id, ResultWrite) > 0
    ensures ToldAsStored(Exec(s, run), id)
    decreases |run|
  {
    if run != [] {
      DoKeepsOk(s, run[0]);
      AnnouncedGrows(s, run[0], id);
      ToldStoreIsTold(s, run[0], id);
      ToldStoresStayTold(Do(s, run[0]), run[1..], id);
    }
  }

  // ---- the exact condition ---------------------------------------------------------------------

  /** Nothing is announced about the journey, no executor is at work, and it has not ended; its row has no reason yet. */
  predicate Unannounced(s: State, id: string) {
    && (forall i :: 0 <= i < |s.executors| ==> s.executors[i] == Idle)
    && (forall x :: x in s.announced ==> x.id != id) && !Ended(s, id)
    && (id in s.journeys ==> s.journeys[id].exitReason.None?)
  }

  /** At most one announcement, and it says what the row says. */
  predicate ToldOnceAndTruly(s: State, id: string) {
    Announced(s.announced, id) <= 1 && forall x :: x in s.announced && x.id == id ==> Matches(s, x)
  }

  lemma {:induction false} NoneAnnounced(log: seq<Ending>, id: string)
    ensures Announced(log, id) == 0 <==> forall x :: x in log ==> x.id != id
  {
    SumPositive(log, (x: Ending) => Bit(x.id == id));
  }

  /**
   * Over every run from idle executors, once no announced ending waits to be stored: the end of a journey has been
   * announced at most once, and as it is stored, exactly when no tick failed to store an ending it had announced.
   */
  lemma AnnouncedTrulyExactlyWhen(s: State, run: seq<Action>, id: string)
    requires Unannounced(s, id) && Legal(s, run) && Pending(Exec(s, run), id) == 0
    ensures ToldOnceAndTruly(Exec(s, run), id) <==> Times(s, run, id, EarlyLoss) == 0
  {
    var end := Exec(s, run);
    Accounting(s, run, id);
    OneStore(s, run, id);
    NoneAnnounced(s.announced, id);
    SumBound(s.executors, (e: Executor) => Bit(EarlyPending(e, id)), 0);
    if Times(s, run, id, EarlyLoss) == 0 {
      NoLossKeeps(s, run, id);
      PendingCounts(end, id);
    } else if Times(s, run, id, EarlyWrite) + Times(s, run, id, ResultWrite) == 0 {
      NoToldStoreStaysUntold(s, run, id);
      UntoldIsNotAnnounced(end, id);
      NoneAnnounced(end.announced, id);
    }
  }

  /**
   * Over every run from idle executors: a tick has ended the journey and no announcement says what the row says exactly
   * when the ending was stored by the retry that follows a failed write of a node's result.
   */
  lemma UntoldExactlyWhen(s: State, run: seq<Action>, id: string)
    requires Unannounced(s, id) && Legal(s, run)
    ensures Stores(s, run, id) == 1 && !ToldAsStored(Exec(s, run), id) <==> Times(s, run, id, SilentWrite) == 1
  {
    OneStore(s, run, id);
    if Times(s, run, id, EarlyWrite) + Times(s, run, id, ResultWrite) > 0 {
      ToldStoresStayTold(s, run, id);
    } else {
      NoToldStoreStaysUntold(s, run, id);
      UntoldIsNotAnnounced(Exec(s, run), id);
    }
  }

  lemma Prepend(s: State, a: Action, rest: seq<Action>)
    requires Enabled(s, a) && Legal(Do(s, a), rest)
    ensures Legal(s, [a] + rest) && Exec(s, [a] + rest) == Exec(Do(s, a), rest)
  {
    assert ([a] + rest)[1..] == rest;
  }

  lemma Steps4(s: State, a: Action, b: Action, c: Action, d: Action)
    requires Enabled(s, a) && Enabled(Do(s, a), b) && Enabled(Do(Do(s, a), b), c) && Enabled(Do(Do(Do(s, a), b), c), d)
    ensures Legal(s, [a, b, c, d]) && Exec(s, [a, b, c, d]) == Do(Do(Do(Do(s, a), b), c), d)
  {
    var s1 := Do(s, a);
    var s2 := Do(s1, b);
    var s3 := Do(s2, c);
    Prepend(s3, d, []);
    Prepend(s2, c, [d] + []);
    Prepend(s1, b, [c] + ([d] + []));
    Prepend(s, a, [b] + ([c] + ([d] + [])));
    assert [a] + ([b] + ([c] + ([d] + []))) == [a, b, c, d];
  }

  predicate Due(s: State, id: string, now: int) {
    && id in s.journeys && s.journeys[id].status.Active? && s.journeys[id].scheduledAt.Some?
    && s.journeys[id].scheduledAt.value <= now && s.journeys[id].automation in s.automations
    && s.automations[s.journeys[id].automation].live && !s.automations[s.journeys[id].automation].deleted
  }

  /** A tick overtaken by a reply announces an ending that is never stored: any due journey that exits on replies will do. */
  lemma OvertakenTickAnnounces(s: State, id: string, i: nat, now: int) returns (run: seq<Action>)
    requires Unannounced(s, id) && i < |s.executors| && Due(s, id, now) && s.journeys[id].node.Some?
    requires s.automations[s.journeys[id].automation].exitOnReply
    ensures Legal(s, run) && !ToldOnceAndTruly(Exec(s, run), id) && Pending(Exec(s, run), id) == 0
    ensures id in Exec(s, run).journeys && Exec(s, run).journeys[id].exitReason == Some(REPLIED)
    ensures Ending(id, Exited, Some(NODE_DELETED)) in Exec(s, run).announced
  {
    var j := s.journeys[id];
    var fetch, reply := Fetch(i, id, now), Reply(j.email, None, j.enteredAt + 1);
    run := [fetch, reply, Compute(i, NodeDeleted, now), Write(i, now)];
    Steps4(s, fetch, reply, Compute(i, NodeDeleted, now), Write(i, now));
    var end := Exec(s, run);
    assert end.announced == s.announced + [Ending(id, Exited, Some(NODE_DELETED))];
    assert forall k :: 0 <= k < |end.executors| ==> end.executors[k] == Idle;
    SumBound(end.executors, (e: Executor) => Bit(EarlyPending(e, id)), 0);
    assert !Matches(end, Ending(id, Exited, Some(NODE_DELETED)));
  }

  /** A journey whose last node's result cannot be written at first is completed by the retry, and nothing is announced. */
  lemma FailedWriteEndsSilently(s: State, id: string, i: nat, text: string, retryAt: int, now: int) returns (run: seq<Action>)
    requires Unannounced(s, id) && i < |s.executors| && Due(s, id, now) && s.journeys[id].node.Some?
    requires s.journeys[id].retries + 1 < s.journeys[id].maxRetries
    ensures Legal(s, run) && Exec(s, run).announced == s.announced
    ensures id in Exec(s, run).journeys && Exec(s, run).journeys[id].status.Completed?
  {
    var fetch, last := Fetch(i, id, now), Compute(i, Result(None, None, Active, None), now);
    run := [fetch, last, WriteFails(i, text, retryAt), Write(i, now)];
    Steps4(s, fetch, last, WriteFails(i, text, retryAt), Write(i, now));
  }

  // ---- whose copy is written -------------------------------------------------------------------

  predicate Holds(e: Executor, id: string) { !e.Idle? && e.id == id }

  /** A fetch takes no journey that another executor still works on; the row lock ends with the query. */
  predicate FetchesAlone(s: State, a: Action) {
    a.Fetch? ==> forall i :: 0 <= i < |s.executors| ==> !Holds(s.executors[i], a.id)
  }

  predicate AllFetchAlone(s: State, run: seq<Action>)
    requires Legal(s, run)
    decreases |run|
  {
    run == [] || (FetchesAlone(s, run[0]) && AllFetchAlone(Do(s, run[0]), run[1..]))
  }

  /** The copy is of this journey, and while the journey is active it is the stored row. */
  predicate CopyIsCurrent(s: State, e: Executor) {
    !e.Idle? ==>
      && e.id in s.journeys && Stored(s.journeys[e.id], e.copy) == e.copy
      && (e.Working? && s.journeys[e.id].status.Active? ==> e.copy == s.journeys[e.id])
  }

  predicate Current(s: State) {
    && (forall i :: 0 <= i < |s.executors| ==> CopyIsCurrent(s, s.executors[i]))
    && (forall i, j :: 0 <= i < j < |s.executors| && !s.executors[i].Idle? ==> !Holds(s.executors[j], s.executors[i].id))
  }

  lemma DoKeepsCurrent(s: State, a: Action)
    requires AllOk(s) && Current(s) && Enabled(s, a) && FetchesAlone(s, a)
    ensures Current(Do(s, a))
  {
    var s' := Do(s, a);
    forall i | 0 <= i < |s'.executors| ensures CopyIsCurrent(s', s'.executors[i]) {
      assert CopyIsCurrent(s, s.executors[i]);
      if a.Write? && i != a.i && !s.executors[i].Idle? {
        assert s.executors[i].id != s.executors[a.i].id;
      }
    }
  }

  /** If no journey is fetched while an executor works on it, every tick continues from the row as it is stored. */
  lemma {:induction false} TicksContinueFromTheRow(s: State, run: seq<Action>)
    requires AllOk(s) && Current(s) && Legal(s, run) && AllFetchAlone(s, run)
    ensures Current(Exec(s, run))
    decreases |run|
  {
    if run != [] {
      DoKeepsOk(s, run[0]);
      DoKeepsCurrent(s, run[0]);
      TicksContinueFromTheRow(Do(s, run[0]), run[1..]);
    }
  }

  /**
   * Otherwise a stale copy moves an active journey back: two executors fetch it, one takes it from its node to
   * another, and the other stores what it made of the first node.
   */
  lemma StaleTickMovesBack(s: State, id: string, i: nat, j: nat, onward: string, back: string, wake: int, now: int)
    requires i < |s.executors| && j < |s.executors| && i != j && s.executors[i] == Idle && s.executors[j] == Idle
    requires Due(s, id, now) && s.journeys[id].node.Some? && wake > now && onward != back
    ensures var both := Do(Do(s, Fetch(i, id, now)), Fetch(j, id, now));
      var ahead := Do(Do(both, Compute(j, Result(Some(onward), Some(wake), Active, None), now)), Write(j, now));
      var after := Do(Do(ahead, Compute(i, Result(Some(back), Some(wake), Active, None), now)), Write(i, now));
      && ahead.journeys[id].node == Some(onward) && ahead.executors[j] == Idle
      && after.journeys[id].node == Some(back) && after.journeys[id].status == Active
  {
  }
}
