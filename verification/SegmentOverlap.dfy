/** How the segment cache goes wrong, from the empty workspace: lost writes, dropped emails and overlapping processors. */
module SegmentOverlap {
  import opened Sql
  import opened Timeline
  import opened Triggers
  import opened Workspace
  import opened SegmentQueue
  import opened SegmentCache

  // ---- building schedules ----------------------------------------------------------------------

  lemma {:induction false} ExecConcat(cfg: Config, m: Machine, a: seq<Action>, b: seq<Action>)
    requires Legal(cfg, m, a) && Legal(cfg, Exec(cfg, m, a), b)
    ensures Legal(cfg, m, a + b) && Exec(cfg, m, a + b) == Exec(cfg, Exec(cfg, m, a), b)
    decreases |a|
  {
    if a == [] {
      assert a + b == b;
    } else {
      var s, rest := Do(cfg, m, a[0]), a[1..];
      ExecConcat(cfg, s, rest, b);
      assert (a + b)[1..] == rest + b && (a + b)[0] == a[0];
    }
  }

  lemma ExecOne(cfg: Config, m: Machine, a: Action)
    requires Enabled(m, a)
    ensures Legal(cfg, m, [a]) && Exec(cfg, m, [a]) == Do(cfg, m, a)
  {
    assert [a][1..] == [];
  }

  lemma Concat3(cfg: Config, m: Machine, a: seq<Action>, m1: Machine, b: seq<Action>, m2: Machine, c: seq<Action>, m3: Machine)
    requires Legal(cfg, m, a) && Exec(cfg, m, a) == m1
    requires Legal(cfg, m1, b) && Exec(cfg, m1, b) == m2
    requires Legal(cfg, m2, c) && Exec(cfg, m2, c) == m3
    ensures Legal(cfg, m, a + b + c) && Exec(cfg, m, a + b + c) == m3
  {
    ExecConcat(cfg, m, a, b);
    ExecConcat(cfg, m, a + b, c);
  }

  predicate NoMembershipWrites(ws: seq<Stamped>) { forall s :: s in ws ==> !IsMembershipWrite(s.write) }

  /** Outside writes alone. */
  lemma {:induction false} WritesIn(cfg: Config, m: Machine, ws: seq<Stamped>) returns (run: seq<Action>)
    requires NoMembershipWrites(ws) && m.dropped == {}
    ensures Legal(cfg, m, run) && Lossless(run) && Exec(cfg, m, run) == m.(db := Run(m.db, ws))
    decreases |ws|
  {
    if ws == [] {
      run := [];
    } else {
      assert ws[0] in ws && m.dropped - Step(m.db, ws[0]).queue.Keys == m.dropped;
      var rest := WritesIn(cfg, m.(db := Step(m.db, ws[0])), ws[1..]);
      run := [External(ws[0])] + rest;
      ExecOne(cfg, m, External(ws[0]));
      ExecConcat(cfg, m, [External(ws[0])], rest);
    }
  }

  function Evaluated(cfg: Config, db: Db, e: string): Worker {
    Worker([e], Some(Pass(ViewOf(db, e), cfg.active)), {})
  }

  function Later(db: Db, e: string): int
    requires e in db.queue
  {
    db.queue[e] + DEBOUNCE_SECONDS + 1
  }

  function Taken(cfg: Config, m: Machine, i: nat, e: string): Machine
    requires i < |m.workers|
  {
    m.(db := m.db.(queue := m.db.queue - {e}), workers := m.workers[i := Evaluated(cfg, m.db, e)])
  }

  /** Worker `i` claims the email alone, once the debounce is over, and evaluates it. */
  lemma ClaimThenEvaluate(cfg: Config, m: Machine, i: nat, e: string) returns (run: seq<Action>)
    requires i < |m.workers| && m.workers[i] == IDLE && e in m.db.queue
    ensures Legal(cfg, m, run) && Lossless(run) && Exec(cfg, m, run) == Taken(cfg, m, i, e)
  {
    var now := Later(m.db, e);
    var m' := Do(cfg, m, Claim(i, [e], now));
    assert (set x | x in [e]) == {e};
    SameViews(m.db, m'.db);
    ExecOne(cfg, m, Claim(i, [e], now));
    ExecOne(cfg, m', Evaluate(i));
    ExecConcat(cfg, m, [Claim(i, [e], now)], [Evaluate(i)]);
    run := [Claim(i, [e], now)] + [Evaluate(i)];
  }

  lemma OneWrite(cfg: Config, m: Machine, s: Stamped, db: Db) returns (run: seq<Action>)
    requires !IsMembershipWrite(s.write) && db == Step(m.db, s) && m.dropped == {}
    ensures Legal(cfg, m, run) && Lossless(run) && Exec(cfg, m, run) == m.(db := db)
  {
    assert m.dropped - db.queue.Keys == m.dropped;
    ExecOne(cfg, m, External(s));
    run := [External(s)];
  }

  /** All membership writes of the pass succeed, and the processor finishes. */
  lemma {:induction false} WritesOut(cfg: Config, m: Machine, i: nat, e: string, view: View, todo: seq<string>, now: int)
    returns (run: seq<Action>)
    requires i < |m.workers| && m.workers[i] == Worker([e], Some(Pass(view, todo)), {})
    ensures Legal(cfg, m, run) && Lossless(run)
    ensures var end := Exec(cfg, m, run);
      && end.db.queue == m.db.queue && ViewOf(end.db, e) == ViewOf(m.db, e) && end.workers == m.workers[i := IDLE]
      && forall s :: (e, s) in end.db.members <==> if s in todo then cfg.matches(s, view) else (e, s) in m.db.members
    decreases |todo|
  {
    if todo == [] {
      run := [Finish(i)];
      ExecOne(cfg, m, Finish(i));
      assert [e][1..] == [];
    } else {
      var a := WriteMembership(i, now);
      var m' := Do(cfg, m, a);
      WriteOneFrame(cfg, m.db, e, todo[0], cfg.matches(todo[0], view), now);
      assert m'.workers == m.workers[i := Worker([e], Some(Pass(view, todo[1..])), {})];
      var rest := WritesOut(cfg, m', i, e, view, todo[1..], now);
      ExecOne(cfg, m, a);
      ExecConcat(cfg, m, [a], rest);
      run := [a] + rest;
      assert m'.workers[i := IDLE] == m.workers[i := IDLE];
    }
  }

  /** The context is cancelled after the evaluation: all its membership writes are lost, and the processor finishes. */
  lemma {:induction false} LosesAll(cfg: Config, m: Machine, i: nat, e: string, view: View, todo: seq<string>)
    returns (run: seq<Action>)
    requires i < |m.workers| && m.workers[i] == Worker([e], Some(Pass(view, todo)), {})
    ensures Legal(cfg, m, run)
    ensures Exec(cfg, m, run).db == m.db && Exec(cfg, m, run).workers == m.workers[i := IDLE]
    decreases |todo|
  {
    if todo == [] {
      run := [Finish(i)];
      ExecOne(cfg, m, Finish(i));
      assert [e][1..] == [];
    } else {
      var a := LoseWrite(i);
      var m' := Do(cfg, m, a);
      assert m'.workers == m.workers[i := Worker([e], Some(Pass(view, todo[1..])), {})];
      var rest := LosesAll(cfg, m', i, e, view, todo[1..]);
      ExecOne(cfg, m, a);
      ExecConcat(cfg, m, [a], rest);
      run := [a] + rest;
      assert m'.workers[i := IDLE] == m.workers[i := IDLE];
    }
  }

  // ---- a lost write, with a single processor ---------------------------------------------------

  lemma {:induction false} NobodyJoins(db: Db, ws: seq<Stamped>)
    requires NoMembershipWrites(ws)
    ensures Run(db, ws).members == db.members
    decreases |ws|
  {
    if ws != [] {
      assert ws[0] in ws;
      WriteQueuesViewChanges(db, ws[0], "");
      NobodyJoins(Step(db, ws[0]), ws[1..]);
    }
  }

  /**
   * One processor is enough: whatever queued contact should join a segment, some interleaving leaves it at rest
   * outside that segment, the membership writes after its evaluation being lost.
   */
  lemma LostWritesDisagree(cfg: Config, n: nat, ws: seq<Stamped>, e: string, seg: string) returns (run: seq<Action>)
    requires n > 0 && seg in cfg.active && NoMembershipWrites(ws)
    requires e in Run(EMPTY_DB, ws).queue && cfg.matches(seg, ViewOf(Run(EMPTY_DB, ws), e))
    ensures Legal(cfg, Start(n), run)
    ensures AtRest(Exec(cfg, Start(n), run), e) && !AgreesOn(cfg, Exec(cfg, Start(n), run), e, seg)
  {
    var db := Run(EMPTY_DB, ws);
    var m := Start(n).(db := db);
    var first := WritesIn(cfg, Start(n), ws);
    var m1 := Taken(cfg, m, 0, e);
    var claim := ClaimThenEvaluate(cfg, m, 0, e);
    var rest := LosesAll(cfg, m1, 0, e, ViewOf(db, e), cfg.active);
    ExecConcat(cfg, Start(n), first, claim);
    ExecConcat(cfg, Start(n), first + claim, rest);
    run := first + claim + rest;
    NobodyJoins(EMPTY_DB, ws);
    SameViews(db, m1.db);
  }

  /** The evaluation of the only claimed email fails, and so does putting it back; or the processor crashes. */
  lemma DropsOne(cfg: Config, m: Machine, e: string, crash: bool) returns (run: seq<Action>)
    requires |m.workers| > 0 && m.workers[0] == Evaluated(cfg, m.db, e) && e !in m.db.queue
    ensures Legal(cfg, m, run) && forall a :: a in run ==> !a.LoseWrite?
    ensures Exec(cfg, m, run) == m.(workers := m.workers[0 := IDLE], dropped := m.dropped + {e})
  {
    assert (set x | x in [e]) == {e} && [e][1..] == [];
    if crash {
      run := [Crash(0)];
      ExecOne(cfg, m, Crash(0));
    } else {
      var m' := Do(cfg, m, FailHead(0));
      assert m'.workers[0] == Worker([], None, {e});
      ExecOne(cfg, m, FailHead(0));
      ExecOne(cfg, m', LoseRequeue(0));
      ExecConcat(cfg, m, [FailHead(0)], [LoseRequeue(0)]);
      run := [FailHead(0)] + [LoseRequeue(0)];
      assert m'.workers[0 := IDLE] == m.workers[0 := IDLE];
    }
  }

  /**
   * One processor is enough again: whatever queued contact should join a segment, some interleaving without a lost
   * membership write leaves it at rest outside that segment, its re-enqueue having failed or its processor crashed.
   */
  lemma DroppedDisagrees(cfg: Config, n: nat, ws: seq<Stamped>, e: string, seg: string, crash: bool) returns (run: seq<Action>)
    requires n > 0 && seg in cfg.active && NoMembershipWrites(ws)
    requires e in Run(EMPTY_DB, ws).queue && cfg.matches(seg, ViewOf(Run(EMPTY_DB, ws), e))
    ensures Legal(cfg, Start(n), run) && forall a :: a in run ==> !a.LoseWrite?
    ensures var end := Exec(cfg, Start(n), run);
      AtRest(end, e) && e in end.dropped && !AgreesOn(cfg, end, e, seg) && !Stale(end, (e, seg))
  {
    var db := Run(EMPTY_DB, ws);
    var m := Start(n).(db := db);
    var first := WritesIn(cfg, Start(n), ws);
    var m1 := Taken(cfg, m, 0, e);
    var claim := ClaimThenEvaluate(cfg, m, 0, e);
    SameViews(db, m1.db);
    var rest := DropsOne(cfg, m1, e, crash);
    var end := m1.(workers := m1.workers[0 := IDLE], dropped := {e});
    Concat3(cfg, Start(n), first, m, claim, m1, rest, end);
    run := first + claim + rest;
    NobodyJoins(EMPTY_DB, ws);
  }

  // ---- two processors --------------------------------------------------------------------------

  /** After the writes `ws` the email is queued, and the write `s` changes whether it belongs to an active segment. */
  predicate Flips(cfg: Config, ws: seq<Stamped>, s: Stamped, e: string, seg: string) {
    && seg in cfg.active && NoMembershipWrites(ws) && !IsMembershipWrite(s.write) && e in Run(EMPTY_DB, ws).queue
    && cfg.matches(seg, ViewOf(Run(EMPTY_DB, ws), e)) != cfg.matches(seg, ViewOf(Step(Run(EMPTY_DB, ws), s), e))
  }

  lemma TablesIgnoreQueue(db: Db, q: map<string, int>, w: Write, now: int)
    ensures var db' := db.(queue := q);
      && Applies(db', w) == Applies(db, w)
      && (Applies(db, w) ==> Rows(db', w, now) == Rows(db, w, now) && Tables(db', w).contacts == Tables(db, w).contacts)
  {
  }

  /** What a write does to a view does not depend on who is queued. */
  lemma ViewIgnoresQueue(db: Db, q: map<string, int>, s: Stamped, e: string)
    ensures ViewOf(Step(db.(queue := q), s), e) == ViewOf(Step(db, s), e)
  {
    var db' := db.(queue := q);
    TablesIgnoreQueue(db, q, s.write, s.now);
    if Applies(db, s.write) {
      StepAppends(db, s);
      StepProjects(db, s);
      StepAppends(db', s);
      StepProjects(db', s);
    } else {
      SameViews(db, db');
    }
  }

  /** A write that changes the view queues the email again, although it has just been claimed. */
  lemma ChangeRequeues(db: Db, e: string, s: Stamped)
    requires !IsMembershipWrite(s.write) && ViewOf(Step(db, s), e) != ViewOf(db, e)
    ensures var claimed := db.(queue := db.queue - {e});
      && ViewOf(claimed, e) == ViewOf(db, e)
      && e in Step(claimed, s).queue && ViewOf(Step(claimed, s), e) == ViewOf(Step(db, s), e)
  {
    var claimed := db.(queue := db.queue - {e});
    SameViews(db, claimed);
    ViewIgnoresQueue(db, claimed.queue, s, e);
    WriteQueuesViewChanges(claimed, s, e);
  }

  /** The first processor holds the view from before the write, the second the one since. */
  lemma BothEvaluate(cfg: Config, m: Machine, e: string, s: Stamped) returns (run: seq<Action>, end: Machine, late: Db)
    requires |m.workers| >= 2 && m.workers[0] == IDLE && m.workers[1] == IDLE && e in m.db.queue && m.dropped == {}
    requires !IsMembershipWrite(s.write) && ViewOf(Step(m.db, s), e) != ViewOf(m.db, e)
    ensures Legal(cfg, m, run) && Lossless(run) && Exec(cfg, m, run) == end
    ensures e !in end.db.queue && ViewOf(end.db, e) == ViewOf(late, e) && ViewOf(late, e) == ViewOf(Step(m.db, s), e)
    ensures |end.workers| == |m.workers| && end.workers[0] == Evaluated(cfg, m.db, e) && end.workers[1] == Evaluated(cfg, late, e)
    ensures forall j :: 2 <= j < |m.workers| ==> end.workers[j] == m.workers[j]
  {
    var m1 := Taken(cfg, m, 0, e);
    var a := ClaimThenEvaluate(cfg, m, 0, e);
    ChangeRequeues(m.db, e, s);
    late := Step(m1.db, s);
    var m2 := m1.(db := late);
    var b := OneWrite(cfg, m1, s, late);
    end := Taken(cfg, m2, 1, e);
    var c := ClaimThenEvaluate(cfg, m2, 1, e);
    Concat3(cfg, m, a, m1, b, m2, c, end);
    run := a + b + c;
    SameViews(late, end.db);
  }

  /** The second processor writes first, so the memberships kept are those the first evaluated. */
  lemma BothWrite(cfg: Config, m: Machine, e: string, early: Db, late: Db) returns (run: seq<Action>, end: Machine)
    requires |m.workers| >= 2 && m.workers[0] == Evaluated(cfg, early, e) && m.workers[1] == Evaluated(cfg, late, e)
    ensures Legal(cfg, m, run) && Lossless(run) && Exec(cfg, m, run) == end
    ensures end.db.queue == m.db.queue && ViewOf(end.db, e) == ViewOf(m.db, e) && |end.workers| == |m.workers|
    ensures forall j :: 0 <= j < |m.workers| ==> end.workers[j] == if j < 2 then IDLE else m.workers[j]
    ensures forall s :: s in cfg.active ==> ((e, s) in end.db.members <==> cfg.matches(s, ViewOf(early, e)))
  {
    var a := WritesOut(cfg, m, 1, e, ViewOf(late, e), cfg.active, 0);
    var m1 := Exec(cfg, m, a);
    var b := WritesOut(cfg, m1, 0, e, ViewOf(early, e), cfg.active, 0);
    ExecConcat(cfg, m, a, b);
    run := a + b;
    end := Exec(cfg, m1, b);
  }

  /** The whole overlap, from idle processors: the memberships kept are those of the view before the write. */
  lemma Overlap(cfg: Config, m: Machine, e: string, s: Stamped) returns (run: seq<Action>, end: Machine)
    requires |m.workers| >= 2 && (forall j :: 0 <= j < |m.workers| ==> m.workers[j] == IDLE) && e in m.db.queue
    requires m.dropped == {}
    requires !IsMembershipWrite(s.write) && ViewOf(Step(m.db, s), e) != ViewOf(m.db, e)
    ensures Legal(cfg, m, run) && Lossless(run) && Exec(cfg, m, run) == end
    ensures (forall j :: 0 <= j < |end.workers| ==> end.workers[j] == IDLE) && e !in end.db.queue
    ensures ViewOf(end.db, e) == ViewOf(Step(m.db, s), e)
    ensures forall x :: x in cfg.active ==> ((e, x) in end.db.members <==> cfg.matches(x, ViewOf(m.db, e)))
  {
    var a, m1, late := BothEvaluate(cfg, m, e, s);
    var b;
    b, end := BothWrite(cfg, m1, e, m.db, late);
    ExecConcat(cfg, m, a, b);
    run := a + b;
  }

  /**
   * With two processors or more, whatever write flips a segment for a queued contact, some interleaving from the
   * empty workspace in which nothing fails leaves that contact at rest with the stale membership.
   */
  lemma OverlapLeavesStale(cfg: Config, n: nat, ws: seq<Stamped>, s: Stamped, e: string, seg: string) returns (run: seq<Action>)
    requires n >= 2 && Flips(cfg, ws, s, e, seg)
    ensures Legal(cfg, Start(n), run) && Lossless(run)
    ensures AtRest(Exec(cfg, Start(n), run), e) && !AgreesOn(cfg, Exec(cfg, Start(n), run), e, seg)
  {
    var m := Start(n).(db := Run(EMPTY_DB, ws));
    var first := WritesIn(cfg, Start(n), ws);
    var rest, end := Overlap(cfg, m, e, s);
    ExecConcat(cfg, Start(n), first, rest);
    run := first + rest;
  }

  /** The number of processors decides: while nothing fails the cache agrees in every interleaving exactly for at most one. */
  lemma AgreesExactlyWhen(cfg: Config, n: nat, ws: seq<Stamped>, s: Stamped, e: string, seg: string)
    requires NoneOfNothing(cfg) && Flips(cfg, ws, s, e, seg)
    ensures n <= 1 <==>
      (forall run, email :: Legal(cfg, Start(n), run) && Lossless(run) && AtRest(Exec(cfg, Start(n), run), email) ==>
         Agrees(cfg, Exec(cfg, Start(n), run).db, email))
  {
    if n <= 1 {
      forall run, email | Legal(cfg, Start(n), run) && Lossless(run) && AtRest(Exec(cfg, Start(n), run), email)
        ensures Agrees(cfg, Exec(cfg, Start(n), run).db, email)
      {
        OneProcessorAgrees(cfg, n, run, email);
      }
    } else {
      var run := OverlapLeavesStale(cfg, n, ws, s, e, seg);
      assert !Agrees(cfg, Exec(cfg, Start(n), run).db, e);
    }
  }

  // ---- an occurrence ---------------------------------------------------------------------------

  /** An inbound message is one more event in its contact's view. */
  lemma InboundIsSeen(db: Db, e: Inbound, now: int)
    ensures ViewOf(Step(db, Stamped(InsertInbound(e), now)), e.email).events
         == ViewOf(db, e.email).events + InboundRows(e, now)
  {
    var rows := InboundRows(e, now);
    assert rows == [rows[0]];
    StepAppends(db, Stamped(InsertInbound(e), now));
    OwnEventsConcat(db.timeline, rows, e.email);
  }

  /** Who has two events or more, in a single segment. */
  function TwoEvents(seg: string): Config { Config([seg], (_: string) => 1, (_: string, v: View) => |v.events| >= 2) }

  /** A second inbound message flips that segment, whatever the two messages say. */
  lemma SecondMessageFlips(seg: string, e: Inbound, now: int)
    ensures NoneOfNothing(TwoEvents(seg))
    ensures Flips(TwoEvents(seg), [Stamped(InsertInbound(e), now)], Stamped(InsertInbound(e), now), e.email, seg)
  {
    var s := Stamped(InsertInbound(e), now);
    var one := Step(EMPTY_DB, s);
    assert Run(EMPTY_DB, [s]) == one by { assert [s][1..] == []; }
    InboundIsSeen(EMPTY_DB, e, now);
    InboundIsSeen(one, e, now);
    WriteQueuesViewChanges(EMPTY_DB, s, e.email);
    assert ViewOf(EMPTY_DB, e.email).events == [];
  }

  /** So for that segment the number of processors decides. */
  lemma TwoEventsAgreeExactlyWhen(seg: string, e: Inbound, now: int, n: nat)
    ensures n <= 1 <==>
      (forall run, email ::
         Legal(TwoEvents(seg), Start(n), run) && Lossless(run) && AtRest(Exec(TwoEvents(seg), Start(n), run), email) ==>
         Agrees(TwoEvents(seg), Exec(TwoEvents(seg), Start(n), run).db, email))
  {
    SecondMessageFlips(seg, e, now);
    var s := Stamped(InsertInbound(e), now);
    AgreesExactlyWhen(TwoEvents(seg), n, [s], s, e.email, seg);
  }
}
