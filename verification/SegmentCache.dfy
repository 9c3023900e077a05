/** Segment memberships are a cache of their definition: exactly how far, over every interleaving. */
module SegmentCache {
  import opened Sql
  import opened Timeline
  import opened Triggers
  import opened Workspace
  import opened SegmentQueue

  // ---- what is stored ----------------------------------------------------------------------------

  const NOBODY := View(None, [])

  /** Contacts nobody has heard of are in no segment. */
  predicate NoneOfNothing(cfg: Config) { forall s :: s in cfg.active ==> !cfg.matches(s, NOBODY) }

  /** The last write of the pair was lost while the stored membership differed from it. */
  predicate Stale(m: Machine, key: (string, string)) { key in m.losses && m.losses[key] }

  /** The view behind the last attempt to write the pair. */
  function Seen(m: Machine, key: (string, string)): View { if key in m.seen then m.seen[key] else NOBODY }

  /** The verdict on the present view is not the one of the last attempt. */
  predicate Outdated(cfg: Config, m: Machine, key: (string, string)) {
    cfg.matches(key.1, Seen(m, key)) != cfg.matches(key.1, ViewOf(m.db, key.0))
  }

  /** Whether the stored membership is the one a fresh evaluation gives. */
  predicate AgreesOn(cfg: Config, m: Machine, email: string, segment: string) {
    (email, segment) in m.db.members <==> cfg.matches(segment, ViewOf(m.db, email))
  }

  predicate IsTail(todo: seq<string>, active: seq<string>) {
    |todo| <= |active| && todo == active[|active| - |todo|..]
  }

  /** The stored membership is the verdict of the last attempt, or the opposite if that was lost and would have changed it. */
  ghost predicate Recorded(cfg: Config, m: Machine) {
    forall k: (string, string) :: k.1 in cfg.active ==>
      (k in m.db.members <==> cfg.matches(k.1, Seen(m, k)) != Stale(m, k))
  }

  predicate Attempts(a: Action) { a.WriteMembership? || a.LoseWrite? }

  /** What an attempt, made or lost, changes: no view, no queue row and no other pair. */
  ghost predicate Attempted(cfg: Config, m: Machine, a: Action, m': Machine)
    requires Attempts(a) && Enabled(m, a)
  {
    var w := m.workers[a.i];
    var key := (w.batch[0], w.current.value.todo[0]);
    && m'.db.queue == m.db.queue && m'.dropped == m.dropped && (forall e :: ViewOf(m'.db, e) == ViewOf(m.db, e))
    && m'.seen == m.seen[key := w.current.value.view]
    && (key in m'.db.members <==> cfg.matches(key.1, w.current.value.view) != Stale(m', key))
    && (forall k: (string, string) :: k != key ==> (k in m'.db.members <==> k in m.db.members) && Stale(m', k) == Stale(m, k))
    && m'.workers == Advance(m, a.i).workers
  }

  lemma WriteFrame(cfg: Config, m: Machine, a: Action)
    requires a.WriteMembership? && Enabled(m, a)
    ensures Attempted(cfg, m, a, Do(cfg, m, a))
  {
    var w := m.workers[a.i];
    var s := w.current.value.todo[0];
    WriteOneFrame(cfg, m.db, w.batch[0], s, cfg.matches(s, w.current.value.view), a.now);
  }

  lemma AttemptFrame(cfg: Config, m: Machine, a: Action)
    requires Attempts(a) && Enabled(m, a)
    ensures Attempted(cfg, m, a, Do(cfg, m, a))
  {
    if a.WriteMembership? {
      WriteFrame(cfg, m, a);
    }
  }

  lemma OthersKeepRecord(cfg: Config, m: Machine, a: Action)
    requires Enabled(m, a) && !Attempts(a)
    ensures var m' := Do(cfg, m, a);
      m'.db.members == m.db.members && m'.seen == m.seen && m'.losses == m.losses
  {
    if a.External? {
      WriteQueuesViewChanges(m.db, a.write, "");
    }
  }

  lemma AttemptKeepsRecord(cfg: Config, m: Machine, a: Action, m': Machine)
    requires Recorded(cfg, m) && Attempts(a) && Enabled(m, a) && Attempted(cfg, m, a, m')
    ensures Recorded(cfg, m')
  {
  }

  lemma StepKeepsRecord(cfg: Config, m: Machine, a: Action)
    requires Recorded(cfg, m) && Enabled(m, a)
    ensures Recorded(cfg, Do(cfg, m, a))
  {
    if Attempts(a) {
      AttemptFrame(cfg, m, a);
      AttemptKeepsRecord(cfg, m, a, Do(cfg, m, a));
    } else {
      OthersKeepRecord(cfg, m, a);
    }
  }

  lemma {:induction false} RunKeepsRecord(cfg: Config, m: Machine, actions: seq<Action>)
    requires Recorded(cfg, m) && Legal(cfg, m, actions)
    ensures Recorded(cfg, Exec(cfg, m, actions))
    decreases |actions|
  {
    if actions != [] {
      StepKeepsRecord(cfg, m, actions[0]);
      RunKeepsRecord(cfg, Do(cfg, m, actions[0]), actions[1..]);
    }
  }

  /**
   * In every interleaving of outside writes and any number of processors, whatever of their writes fails and whoever
   * holds what: a stored membership disagrees with a fresh evaluation exactly when either the verdict has changed
   * since the view that was read for the last attempt to write it, or that attempt was lost and would have changed it.
   */
  lemma DisagreesExactlyWhen(cfg: Config, n: nat, actions: seq<Action>, email: string, segment: string)
    requires NoneOfNothing(cfg) && segment in cfg.active && Legal(cfg, Start(n), actions)
    ensures var end, key := Exec(cfg, Start(n), actions), (email, segment);
      !AgreesOn(cfg, end, email, segment) <==> Outdated(cfg, end, key) != Stale(end, key)
  {
    RunKeepsRecord(cfg, Start(n), actions);
    var end, key := Exec(cfg, Start(n), actions), (email, segment);
    assert key in end.db.members <==> cfg.matches(key.1, Seen(end, key)) != Stale(end, key);
  }

  // ---- who is up to date -------------------------------------------------------------------------

  /** The last attempt on every active segment read the view as it is. */
  predicate Settled(cfg: Config, m: Machine, email: string) {
    forall s :: s in cfg.active ==> Seen(m, (email, s)) == ViewOf(m.db, email)
  }

  predicate WellFormed(cfg: Config, w: Worker) {
    && Distinct(w.batch)
    && (forall e :: e in w.batch ==> e !in w.failed)
    && (w.current.Some? ==> w.batch != [] && IsTail(w.current.value.todo, cfg.active))
  }

  /** The pass read the view as it is, and the segments before `todo` have been attempted with it. */
  predicate PassAgrees(cfg: Config, m: Machine, email: string, p: Pass)
    requires IsTail(p.todo, cfg.active)
  {
    && p.view == ViewOf(m.db, email)
    && (forall s :: s in cfg.active[..|cfg.active| - |p.todo|] ==> Seen(m, (email, s)) == p.view)
  }

  predicate InFlightAgrees(cfg: Config, m: Machine, w: Worker)
    requires WellFormed(cfg, w)
  {
    w.current.Some? && w.batch[0] !in m.db.queue ==> PassAgrees(cfg, m, w.batch[0], w.current.value)
  }

  ghost predicate Separate(ws: seq<Worker>) {
    forall i, j, e :: 0 <= i < j < |ws| && Holds(ws[i], e) ==> !Holds(ws[j], e)
  }

  predicate AtRest(m: Machine, email: string) { email !in m.db.queue && !Held(m, email) }

  ghost predicate Inv(cfg: Config, m: Machine) {
    && (forall i :: 0 <= i < |m.workers| ==> WellFormed(cfg, m.workers[i]) && InFlightAgrees(cfg, m, m.workers[i]))
    && Separate(m.workers)
    && (forall e :: AtRest(m, e) && e !in m.dropped ==> Settled(cfg, m, e))
    && (forall e :: e in m.dropped ==> AtRest(m, e))
  }

  /** Nothing an email depends on has changed. */
  ghost predicate Alike(m: Machine, m': Machine, email: string) {
    && ViewOf(m'.db, email) == ViewOf(m.db, email)
    && forall s :: Seen(m', (email, s)) == Seen(m, (email, s))
  }

  lemma AlikeSettled(cfg: Config, m: Machine, m': Machine, email: string)
    requires Alike(m, m', email) && Settled(cfg, m, email)
    ensures Settled(cfg, m', email)
  {
  }

  lemma AlikeInFlight(cfg: Config, m: Machine, m': Machine, w: Worker)
    requires WellFormed(cfg, w) && InFlightAgrees(cfg, m, w)
    requires w.current.Some? && w.batch[0] !in m'.db.queue ==> Alike(m, m', w.batch[0]) && w.batch[0] !in m.db.queue
    ensures InFlightAgrees(cfg, m', w)
  {
  }

  /** Replacing worker `i`: the others hold what they held. */
  lemma HeldAfter(m: Machine, m': Machine, i: nat, e: string)
    requires i < |m.workers| == |m'.workers| && m'.workers == m.workers[i := m'.workers[i]]
    ensures Held(m, e) && !Holds(m.workers[i], e) ==> Held(m', e)
    ensures Held(m', e) && !Holds(m'.workers[i], e) ==> Held(m, e)
    ensures Holds(m'.workers[i], e) ==> Held(m', e)
    ensures Holds(m.workers[i], e) ==> Held(m, e)
  {
    if Held(m, e) && !Holds(m.workers[i], e) {
      var j :| 0 <= j < |m.workers| && Holds(m.workers[j], e);
      assert Holds(m'.workers[j], e);
    }
    if Held(m', e) && !Holds(m'.workers[i], e) {
      var j :| 0 <= j < |m.workers| && Holds(m'.workers[j], e);
      assert Holds(m.workers[j], e);
    }
  }

  lemma SeparateAfter(ws: seq<Worker>, i: nat, w: Worker)
    requires Separate(ws) && i < |ws| && forall e :: Holds(w, e) ==> Holds(ws[i], e)
    ensures Separate(ws[i := w])
  {
  }

  lemma ExternalKeepsInv(cfg: Config, m: Machine, s: Stamped)
    requires Inv(cfg, m) && Enabled(m, External(s))
    ensures Inv(cfg, Do(cfg, m, External(s)))
  {
    var m' := Do(cfg, m, External(s));
    forall e ensures e !in m'.db.queue ==> e !in m.db.queue && Alike(m, m', e) {
      WriteQueuesViewChanges(m.db, s, e);
    }
    forall i | 0 <= i < |m.workers| ensures InFlightAgrees(cfg, m', m.workers[i]) {
      AlikeInFlight(cfg, m, m', m.workers[i]);
    }
    assert forall e :: Held(m', e) <==> Held(m, e);
    forall e | AtRest(m', e) && e !in m'.dropped ensures Settled(cfg, m', e) {
      AlikeSettled(cfg, m, m', e);
    }
  }

  // ---- membership writes, made and lost --------------------------------------------------------

  lemma TailAdvances(active: seq<string>, todo: seq<string>)
    requires IsTail(todo, active) && todo != []
    ensures IsTail(todo[1..], active) && active[|active| - |todo|] == todo[0]
  {
    assert todo[1..] == active[|active| - |todo| + 1..];
  }

  /** The head being written is nobody else's, so other passes do not see the attempt; its own has one segment less to do. */
  lemma AttemptKeepsPasses(cfg: Config, m: Machine, a: Action, m': Machine)
    requires Inv(cfg, m) && Attempts(a) && Enabled(m, a) && Attempted(cfg, m, a, m')
    ensures forall j :: 0 <= j < |m'.workers| ==> WellFormed(cfg, m'.workers[j]) && InFlightAgrees(cfg, m', m'.workers[j])
  {
    var w := m.workers[a.i];
    TailAdvances(cfg.active, w.current.value.todo);
    forall j | 0 <= j < |m'.workers| ensures WellFormed(cfg, m'.workers[j]) && InFlightAgrees(cfg, m', m'.workers[j]) {
      if j != a.i {
        assert Holds(w, w.batch[0]) && !Holds(m.workers[j], w.batch[0]);
        OtherPassUnaffected(cfg, m, m', w.batch[0], m.workers[j]);
      }
    }
  }

  lemma AttemptKeepsInv(cfg: Config, m: Machine, a: Action)
    requires Inv(cfg, m) && Attempts(a) && Enabled(m, a)
    ensures Inv(cfg, Do(cfg, m, a))
  {
    AttemptFrame(cfg, m, a);
    AttemptedKeepsInv(cfg, m, a, Do(cfg, m, a));
  }

  lemma AttemptedKeepsInv(cfg: Config, m: Machine, a: Action, m': Machine)
    requires Inv(cfg, m) && Attempts(a) && Enabled(m, a) && Attempted(cfg, m, a, m')
    ensures Inv(cfg, m')
  {
    var e := m.workers[a.i].batch[0];
    AttemptKeepsPasses(cfg, m, a, m');
    assert Holds(m.workers[a.i], e) && Held(m, e);
    SeparateAfter(m.workers, a.i, m'.workers[a.i]);
    forall x ensures Held(m', x) <==> Held(m, x) { HeldAfter(m, m', a.i, x); }
    forall x | AtRest(m', x) && x !in m'.dropped ensures Settled(cfg, m', x) {
      AlikeSettled(cfg, m, m', x);
    }
  }

  lemma OtherPassUnaffected(cfg: Config, m: Machine, m': Machine, e: string, w: Worker)
    requires WellFormed(cfg, w) && InFlightAgrees(cfg, m, w) && !Holds(w, e)
    requires m'.db.queue == m.db.queue && (forall x :: ViewOf(m'.db, x) == ViewOf(m.db, x))
    requires forall k: (string, string) :: k.0 != e ==> Seen(m', k) == Seen(m, k)
    ensures InFlightAgrees(cfg, m', w)
  {
    if w.current.Some? {
      assert w.batch[0] in w.batch;
      AlikeInFlight(cfg, m, m', w);
    }
  }

  // ---- the other steps -------------------------------------------------------------------------

  /** A step that leaves views and attempts alone, and queues nobody out. */
  predicate SameCache(m: Machine, m': Machine) {
    && m'.db.contacts == m.db.contacts && m'.db.timeline == m.db.timeline && m'.seen == m.seen
    && m.db.queue.Keys <= m'.db.queue.Keys
  }

  lemma SameCacheAlike(m: Machine, m': Machine)
    requires SameCache(m, m')
    ensures forall e :: Alike(m, m', e)
  {
    SameViews(m.db, m'.db);
  }

  /** Worker `i` holds nothing new, and what it lets go of is queued, settled or dropped. */
  ghost predicate LetsGo(cfg: Config, m: Machine, m': Machine, i: nat)
    requires i < |m.workers| && i < |m'.workers|
  {
    var w, w' := m.workers[i], m'.workers[i];
    && m'.workers == m.workers[i := w']
    && (forall e :: Holds(w', e) ==> Holds(w, e))
    && (forall e :: Holds(w, e) && !Holds(w', e) ==> e in m'.db.queue || e in m'.dropped || Settled(cfg, m', e))
    && (forall e :: e in m'.dropped ==> e !in m'.db.queue && (e in m.dropped || (Holds(w, e) && !Holds(w', e))))
    && (forall e :: e in m.dropped ==> e in m'.db.queue || e in m'.dropped)
  }

  lemma OthersUnaffected(cfg: Config, m: Machine, m': Machine, i: nat)
    requires Inv(cfg, m) && SameCache(m, m') && i < |m.workers| == |m'.workers|
    requires m'.workers == m.workers[i := m'.workers[i]]
    ensures forall j :: 0 <= j < |m.workers| && j != i ==> WellFormed(cfg, m'.workers[j]) && InFlightAgrees(cfg, m', m'.workers[j])
  {
    SameCacheAlike(m, m');
    forall j | 0 <= j < |m.workers| && j != i ensures InFlightAgrees(cfg, m', m'.workers[j]) {
      AlikeInFlight(cfg, m, m', m.workers[j]);
    }
  }

  lemma LettingGoKeepsInv(cfg: Config, m: Machine, m': Machine, i: nat)
    requires Inv(cfg, m) && SameCache(m, m') && i < |m.workers| == |m'.workers| && LetsGo(cfg, m, m', i)
    requires WellFormed(cfg, m'.workers[i]) && InFlightAgrees(cfg, m', m'.workers[i])
    ensures Inv(cfg, m')
  {
    OthersUnaffected(cfg, m, m', i);
    SeparateAfter(m.workers, i, m'.workers[i]);
    SameCacheAlike(m, m');
    forall e | AtRest(m', e) && e !in m'.dropped ensures Settled(cfg, m', e) {
      HeldAfter(m, m', i, e);
      if !Holds(m.workers[i], e) {
        AlikeSettled(cfg, m, m', e);
      }
    }
    forall e | e in m'.dropped ensures AtRest(m', e) {
      DroppedIsHeldByNobody(m, m', i, e);
    }
  }

  lemma DroppedIsHeldByNobody(m: Machine, m': Machine, i: nat, e: string)
    requires Separate(m.workers) && i < |m.workers| == |m'.workers| && m'.workers == m.workers[i := m'.workers[i]]
    requires (forall x :: Holds(m'.workers[i], x) ==> Holds(m.workers[i], x))
    requires !Held(m, e) || (Holds(m.workers[i], e) && !Holds(m'.workers[i], e))
    ensures !Held(m', e)
  {
    forall j | 0 <= j < |m'.workers| ensures !Holds(m'.workers[j], e) {
      assert Holds(m.workers[j], e) ==> Held(m, e);
    }
  }

  lemma FinishKeepsInv(cfg: Config, m: Machine, i: nat)
    requires Inv(cfg, m) && Enabled(m, Finish(i))
    ensures Inv(cfg, Do(cfg, m, Finish(i)))
  {
    var m', w := Do(cfg, m, Finish(i)), m.workers[i];
    assert forall x :: x in w.batch <==> x == w.batch[0] || x in w.batch[1..];
    assert InFlightAgrees(cfg, m, w) && cfg.active[..|cfg.active|] == cfg.active;
    SameCacheAlike(m, m');
    LettingGoKeepsInv(cfg, m, m', i);
  }

  lemma EvaluateKeepsInv(cfg: Config, m: Machine, i: nat)
    requires Inv(cfg, m) && Enabled(m, Evaluate(i))
    ensures Inv(cfg, Do(cfg, m, Evaluate(i)))
  {
    assert cfg.active[|cfg.active| - |cfg.active|..] == cfg.active;
    LettingGoKeepsInv(cfg, m, Do(cfg, m, Evaluate(i)), i);
  }

  lemma FailKeepsInv(cfg: Config, m: Machine, a: Action)
    requires Inv(cfg, m) && (a.FailHead? || a.Cancel?) && Enabled(m, a)
    ensures Inv(cfg, Do(cfg, m, a))
  {
    var w := m.workers[a.i];
    assert forall x :: x in w.batch <==> x == w.batch[0] || x in w.batch[1..];
    LettingGoKeepsInv(cfg, m, Do(cfg, m, a), a.i);
  }

  /** Whether the emails of a run that ended early are put back or lost. */
  lemma RequeueKeepsInv(cfg: Config, m: Machine, a: Action)
    requires Inv(cfg, m) && (a.Requeue? || a.LoseRequeue? || a.Crash?) && Enabled(m, a)
    ensures Inv(cfg, Do(cfg, m, a))
  {
    LettingGoKeepsInv(cfg, m, Do(cfg, m, a), a.i);
  }

  lemma ClaimKeepsInv(cfg: Config, m: Machine, a: Action)
    requires Inv(cfg, m) && a.Claim? && Enabled(m, a) && Exclusive(m, a)
    ensures Inv(cfg, Do(cfg, m, a))
  {
    var m' := Do(cfg, m, a);
    SameViews(m.db, m'.db);
    forall e ensures Alike(m, m', e) {}
    forall j | 0 <= j < |m'.workers| && j != a.i ensures InFlightAgrees(cfg, m', m'.workers[j]) {
      var w := m.workers[j];
      if w.current.Some? {
        assert Holds(w, w.batch[0]) && w.batch[0] !in a.emails;
      }
      AlikeInFlight(cfg, m, m', w);
    }
    forall x ensures Held(m', x) <==> Held(m, x) || x in a.emails {
      HeldAfter(m, m', a.i, x);
    }
    forall x | AtRest(m', x) && x !in m'.dropped ensures Settled(cfg, m', x) {
      AlikeSettled(cfg, m, m', x);
    }
    ClaimKeepsSeparate(m, a);
  }

  lemma ClaimKeepsSeparate(m: Machine, a: Action)
    requires Separate(m.workers) && a.Claim? && Enabled(m, a) && Exclusive(m, a)
    ensures Separate(m.workers[a.i := Worker(a.emails, None, {})])
  {
    var ws := m.workers[a.i := Worker(a.emails, None, {})];
    forall p, q, e | 0 <= p < q < |ws| && Holds(ws[p], e) ensures !Holds(ws[q], e) {
      if p != a.i && q != a.i {
        assert ws[p] == m.workers[p] && ws[q] == m.workers[q];
      }
    }
  }

  lemma {:induction false} RunKeepsInv(cfg: Config, m: Machine, actions: seq<Action>)
    requires Inv(cfg, m) && Legal(cfg, m, actions) && AllExclusive(cfg, m, actions)
    ensures Inv(cfg, Exec(cfg, m, actions))
    decreases |actions|
  {
    if actions != [] {
      var a := actions[0];
      match a {
        case External(s) => ExternalKeepsInv(cfg, m, s);
        case Claim(_, _, _) => ClaimKeepsInv(cfg, m, a);
        case Evaluate(i) => EvaluateKeepsInv(cfg, m, i);
        case WriteMembership(_, _) => AttemptKeepsInv(cfg, m, a);
        case LoseWrite(_) => AttemptKeepsInv(cfg, m, a);
        case Finish(i) => FinishKeepsInv(cfg, m, i);
        case FailHead(_) => FailKeepsInv(cfg, m, a);
        case Cancel(_) => FailKeepsInv(cfg, m, a);
        case Requeue(_, _) => RequeueKeepsInv(cfg, m, a);
        case LoseRequeue(_) => RequeueKeepsInv(cfg, m, a);
        case Crash(_) => RequeueKeepsInv(cfg, m, a);
      }
      RunKeepsInv(cfg, Do(cfg, m, actions[0]), actions[1..]);
    }
  }

  // ---- the theorems ----------------------------------------------------------------------------

  /**
   * In every interleaving whose claims take nothing another processor still works on, an email is neither queued nor
   * held only if it was dropped since it was last queued, or every active segment was last attempted with the view as
   * it is; and then it disagrees on exactly the segments whose last write was lost and would have changed something.
   */
  lemma RestsUnlessDropped(cfg: Config, n: nat, actions: seq<Action>, email: string)
    requires NoneOfNothing(cfg) && Legal(cfg, Start(n), actions) && AllExclusive(cfg, Start(n), actions)
    ensures var end := Exec(cfg, Start(n), actions);
      && (email in end.dropped ==> AtRest(end, email))
      && (AtRest(end, email) && email !in end.dropped ==>
            Settled(cfg, end, email)
            && forall s :: s in cfg.active ==> (!AgreesOn(cfg, end, email, s) <==> Stale(end, (email, s))))
  {
    RunKeepsInv(cfg, Start(n), actions);
    var end := Exec(cfg, Start(n), actions);
    if AtRest(end, email) && email !in end.dropped {
      assert Settled(cfg, end, email);
      forall s | s in cfg.active ensures !AgreesOn(cfg, end, email, s) <==> Stale(end, (email, s)) {
        DisagreesExactlyWhen(cfg, n, actions, email, s);
      }
    }
  }

  /** With one processor, or none, claims are exclusive by themselves. */
  lemma {:induction false} OneProcessorIsExclusive(cfg: Config, m: Machine, actions: seq<Action>)
    requires |m.workers| <= 1 && Legal(cfg, m, actions)
    ensures AllExclusive(cfg, m, actions)
    decreases |actions|
  {
    if actions != [] {
      OneProcessorIsExclusive(cfg, Do(cfg, m, actions[0]), actions[1..]);
    }
  }

  /** No membership write and no re-enqueue fails, and no processor crashes. */
  predicate Lossless(actions: seq<Action>) { forall a :: a in actions ==> !a.LoseWrite? && !a.LoseRequeue? && !a.Crash? }

  lemma {:induction false} LosslessLosesNothing(cfg: Config, m: Machine, actions: seq<Action>)
    requires m.losses == map[] && m.dropped == {} && Legal(cfg, m, actions) && Lossless(actions)
    ensures Exec(cfg, m, actions).losses == map[] && Exec(cfg, m, actions).dropped == {}
    decreases |actions|
  {
    if actions != [] {
      assert actions[0] in actions;
      LosslessLosesNothing(cfg, Do(cfg, m, actions[0]), actions[1..]);
    }
  }

  /** For any number of processors, when writes and re-enqueues succeed, nobody crashes and claims are exclusive. */
  lemma SegmentCacheAgrees(cfg: Config, n: nat, actions: seq<Action>, email: string)
    requires NoneOfNothing(cfg) && Legal(cfg, Start(n), actions)
    requires Lossless(actions) && AllExclusive(cfg, Start(n), actions)
    ensures var end := Exec(cfg, Start(n), actions); AtRest(end, email) ==> Agrees(cfg, end.db, email)
  {
    LosslessLosesNothing(cfg, Start(n), actions);
    RestsUnlessDropped(cfg, n, actions, email);
    var end := Exec(cfg, Start(n), actions);
    if AtRest(end, email) {
      forall s | s in cfg.active ensures AgreesOn(cfg, end, email, s) { assert !Stale(end, (email, s)); }
    }
  }

  /**
   * With at most one processor, whose writes and re-enqueues succeed and which does not crash, in every interleaving
   * an email at rest has exactly the memberships a fresh evaluation of every active segment gives it.
   */
  lemma OneProcessorAgrees(cfg: Config, n: nat, actions: seq<Action>, email: string)
    requires NoneOfNothing(cfg) && n <= 1 && Legal(cfg, Start(n), actions) && Lossless(actions)
    ensures var end := Exec(cfg, Start(n), actions); AtRest(end, email) ==> Agrees(cfg, end.db, email)
  {
    OneProcessorIsExclusive(cfg, Start(n), actions);
    SegmentCacheAgrees(cfg, n, actions, email);
  }
}
