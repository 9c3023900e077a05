/** The recompute queue drains: membership writes cascade into timeline rows that never queue anyone. */
module SegmentDrain {
  import opened Sql
  import opened Timeline
  import opened Triggers
  import opened Workspace
  import opened SegmentQueue
  import opened SegmentCache

  // ---- every schedule of processor steps is bounded ------------------------------------------

  /** A processor step other than a failure, a cancellation or a re-enqueue. */
  predicate Progresses(a: Action) {
    a.Claim? || a.Evaluate? || a.WriteMembership? || a.LoseWrite? || a.Finish?
  }

  /** Steps a processor still owes for its batch, with `l` active segments. */
  function Load(w: Worker, l: nat): int {
    |w.batch| * (l + 3) - match w.current case None => 0 case Some(p) => 1 + l - |p.todo|
  }

  function Loads(ws: seq<Worker>, l: nat): int {
    if ws == [] then 0 else Load(ws[0], l) + Loads(ws[1..], l)
  }

  function Measure(cfg: Config, m: Machine): int {
    |m.db.queue| * (|cfg.active| + 4) + Loads(m.workers, |cfg.active|)
  }

  lemma {:induction false} LoadsUpdate(ws: seq<Worker>, i: nat, w: Worker, l: nat)
    requires i < |ws|
    ensures Loads(ws[i := w], l) == Loads(ws, l) - Load(ws[i], l) + Load(w, l)
  {
    if i == 0 {
      assert ws[i := w][1..] == ws[1..];
    } else {
      LoadsUpdate(ws[1..], i - 1, w, l);
      assert ws[i := w][1..] == ws[1..][i - 1 := w];
    }
  }

  lemma {:induction false} LoadsNonNegative(cfg: Config, ws: seq<Worker>)
    requires forall i :: 0 <= i < |ws| ==> WellFormed(cfg, ws[i])
    ensures Loads(ws, |cfg.active|) >= 0
  {
    if ws != [] {
      assert WellFormed(cfg, ws[0]);
      LoadsNonNegative(cfg, ws[1..]);
      var n, l := |ws[0].batch|, |cfg.active|;
      if n > 0 {
        assert n * (l + 3) >= l + 3;
      }
    }
  }

  lemma {:induction false} DistinctCard(s: seq<string>)
    requires Distinct(s)
    ensures |(set e | e in s)| == |s|
  {
    if s == [] {
      assert (set e | e in s) == {};
    } else {
      var init, last := s[..|s| - 1], s[|s| - 1];
      DistinctCard(init);
      assert s == init + [last];
      assert (set e | e in s) == (set e | e in init) + {last};
      assert last !in init;
    }
  }

  lemma RemoveKeysCard(q: map<string, int>, s: set<string>)
    requires s <= q.Keys
    ensures |q - s| == |q| - |s|
  {
    assert (q - s).Keys == q.Keys - s;
  }

  /** Rows leave the queue for as many places in a batch. */
  lemma QueueForBatch(queued: nat, claimed: nat, l: nat, loads: int)
    requires claimed > 0
    ensures (queued - claimed) * (l + 4) + (loads + claimed * (l + 3)) < queued * (l + 4) + loads
  {
    assert (queued - claimed) * (l + 4) + claimed * (l + 3) == queued * (l + 4) - claimed;
  }

  lemma ClaimMoves(cfg: Config, m: Machine, a: Action)
    requires a.Claim? && Enabled(m, a)
    ensures var m' := Do(cfg, m, a);
      && |m'.db.queue| == |m.db.queue| - |a.emails|
      && m.workers[a.i] == IDLE && m'.workers == m.workers[a.i := Worker(a.emails, None, {})]
  {
    var claimed := set e | e in a.emails;
    DistinctCard(a.emails);
    RemoveKeysCard(m.db.queue, claimed);
  }

  lemma ClaimDecreases(cfg: Config, m: Machine, a: Action)
    requires a.Claim? && Enabled(m, a)
    ensures Measure(cfg, Do(cfg, m, a)) < Measure(cfg, m)
  {
    var l, w := |cfg.active|, Worker(a.emails, None, {});
    ClaimMoves(cfg, m, a);
    LoadsUpdate(m.workers, a.i, w, l);
    assert Load(IDLE, l) == 0;
    QueueForBatch(|m.db.queue|, |a.emails|, l, Loads(m.workers, l));
  }

  lemma AttemptDecreases(cfg: Config, m: Machine, a: Action)
    requires Attempts(a) && Enabled(m, a) && WellFormed(cfg, m.workers[a.i])
    ensures Measure(cfg, Do(cfg, m, a)) < Measure(cfg, m)
  {
    var w, p := m.workers[a.i], m.workers[a.i].current.value;
    AttemptFrame(cfg, m, a);
    LoadsUpdate(m.workers, a.i, w.(current := Some(p.(todo := p.todo[1..]))), |cfg.active|);
  }

  /** Each such step, with the whole cascade of its membership writes, strictly decreases the measure. */
  lemma StepDecreases(cfg: Config, m: Machine, a: Action)
    requires Enabled(m, a) && Progresses(a)
    requires forall i :: 0 <= i < |m.workers| ==> WellFormed(cfg, m.workers[i])
    ensures Measure(cfg, Do(cfg, m, a)) < Measure(cfg, m)
  {
    var l, w := |cfg.active|, m.workers[a.i];
    assert WellFormed(cfg, w);
    match a
    case Claim(_, _, _) => ClaimDecreases(cfg, m, a);
    case WriteMembership(_, _) => AttemptDecreases(cfg, m, a);
    case LoseWrite(_) => AttemptDecreases(cfg, m, a);
    case Finish(i) =>
      LoadsUpdate(m.workers, i, w.(batch := w.batch[1..], current := None), l);
      assert (|w.batch| - 1) * (l + 3) == |w.batch| * (l + 3) - (l + 3);
    case Evaluate(i) =>
      LoadsUpdate(m.workers, i, w.(current := Some(Pass(ViewOf(m.db, w.batch[0]), cfg.active))), l);
  }

  /** What such a step makes of its own processor. */
  function Progressed(cfg: Config, m: Machine, a: Action): Worker
    requires Enabled(m, a) && Progresses(a)
  {
    var w := m.workers[a.i];
    match a
    case Claim(_, emails, _) => Worker(emails, None, {})
    case Evaluate(_) => w.(current := Some(Pass(ViewOf(m.db, w.batch[0]), cfg.active)))
    case Finish(_) => w.(batch := w.batch[1..], current := None)
    case WriteMembership(_, _) => Advance(m, a.i).workers[a.i]
    case LoseWrite(_) => Advance(m, a.i).workers[a.i]
  }

  lemma OneProcessorSteps(cfg: Config, m: Machine, a: Action)
    requires Enabled(m, a) && Progresses(a)
    ensures Do(cfg, m, a).workers == m.workers[a.i := Progressed(cfg, m, a)]
  {
  }

  lemma ProgressKeepsForm(cfg: Config, m: Machine, a: Action)
    requires Enabled(m, a) && Progresses(a) && WellFormed(cfg, m.workers[a.i])
    ensures WellFormed(cfg, Progressed(cfg, m, a)) && Progressed(cfg, m, a).failed == m.workers[a.i].failed
  {
    var w := m.workers[a.i];
    assert cfg.active[|cfg.active| - |cfg.active|..] == cfg.active;
    if Attempts(a) {
      TailAdvances(cfg.active, w.current.value.todo);
    }
    if a.Finish? {
      assert forall e :: e in w.batch[1..] ==> e in w.batch;
    }
  }

  lemma StepKeepsForm(cfg: Config, m: Machine, a: Action)
    requires Enabled(m, a) && Progresses(a)
    requires forall i :: 0 <= i < |m.workers| ==> WellFormed(cfg, m.workers[i])
    ensures var m' := Do(cfg, m, a);
      |m'.workers| == |m.workers| && forall i :: 0 <= i < |m'.workers| ==> WellFormed(cfg, m'.workers[i])
    ensures forall i :: 0 <= i < |m.workers| ==> Do(cfg, m, a).workers[i].failed == m.workers[i].failed
  {
    OneProcessorSteps(cfg, m, a);
    ProgressKeepsForm(cfg, m, a);
  }

  /** So no schedule of such steps is longer than the measure of the state it starts from. */
  lemma {:induction false} SchedulesAreBounded(cfg: Config, m: Machine, actions: seq<Action>)
    requires Legal(cfg, m, actions) && (forall a :: a in actions ==> Progresses(a))
    requires forall i :: 0 <= i < |m.workers| ==> WellFormed(cfg, m.workers[i])
    ensures |actions| <= Measure(cfg, m)
    ensures var end := Exec(cfg, m, actions);
      && |end.workers| == |m.workers| && (forall i :: 0 <= i < |end.workers| ==> WellFormed(cfg, end.workers[i]))
      && forall i :: 0 <= i < |m.workers| ==> end.workers[i].failed == m.workers[i].failed
    decreases |actions|
  {
    if actions == [] {
      LoadsNonNegative(cfg, m.workers);
    } else {
      var a := actions[0];
      assert a in actions;
      StepDecreases(cfg, m, a);
      StepKeepsForm(cfg, m, a);
      SchedulesAreBounded(cfg, Do(cfg, m, a), actions[1..]);
    }
  }

  /** Something is left to do: a queued email, or a batch not finished. */
  predicate Pending(m: Machine) {
    m.db.queue != map[] || exists i :: 0 <= i < |m.workers| && m.workers[i].batch != []
  }

  /** While anything is pending a processor can step, given time for the debounce. */
  lemma PendingCanStep(cfg: Config, m: Machine)
    requires Pending(m) && |m.workers| > 0
    requires forall i :: 0 <= i < |m.workers| ==> WellFormed(cfg, m.workers[i]) && m.workers[i].failed == {}
    ensures exists a :: Progresses(a) && Enabled(m, a)
  {
    if i :| 0 <= i < |m.workers| && m.workers[i].batch != [] {
      var w := m.workers[i];
      if w.current.None? {
        assert Enabled(m, Evaluate(i));
      } else if w.current.value.todo == [] {
        assert Enabled(m, Finish(i));
      } else {
        assert Enabled(m, WriteMembership(i, 0));
      }
    } else {
      var e :| e in m.db.queue;
      assert WellFormed(cfg, m.workers[0]) && m.workers[0] == IDLE;
      assert Enabled(m, Claim(0, [e], m.db.queue[e] + DEBOUNCE_SECONDS + 1));
    }
  }

  /** Any schedule that goes on while it can ends with an empty queue and idle processors. */
  lemma QueueDrains(cfg: Config, m: Machine, actions: seq<Action>)
    requires |m.workers| > 0 && Legal(cfg, m, actions) && (forall a :: a in actions ==> Progresses(a))
    requires forall i :: 0 <= i < |m.workers| ==> WellFormed(cfg, m.workers[i]) && m.workers[i].failed == {}
    requires !exists a :: Progresses(a) && Enabled(Exec(cfg, m, actions), a)
    ensures !Pending(Exec(cfg, m, actions)) && |actions| <= Measure(cfg, m)
  {
    SchedulesAreBounded(cfg, m, actions);
    if Pending(Exec(cfg, m, actions)) {
      PendingCanStep(cfg, Exec(cfg, m, actions));
    }
  }

  // ---- where agreement stops ---------------------------------------------------------------

  /**
   * Un-deleting a list entry at the same status writes no timeline row and queues nobody, so a predicate that
   * reads `contact_lists.deleted_at` is outside the reach of the cache.
   */
  lemma RestoreIsSilent(db: Db, key: ListKey, after: ListEntry, now: int)
    requires key in db.lists && after.deletedAt.None? && after.status == db.lists[key].status
    ensures var db' := Step(db, Stamped(UpdateListEntry(key, after), now));
      db'.timeline == db.timeline && db'.queue == db.queue && db'.lists[key].deletedAt == None
  {
    var s := Stamped(UpdateListEntry(key, after), now);
    StepAppends(db, s);
    StepProjects(db, s);
    assert Rows(db, s.write, now) == [];
    assert Requeued([]) == {};
  }
}
