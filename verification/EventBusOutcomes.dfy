/** What every interleaving of one publish can come to, and exactly when it can go wrong. */
module EventBusOutcomes {
  import opened EventBus
  import opened Tally
  import opened Sql

  // ---- every run is finite ---------------------------------------------------------------------

  function WatcherRank(w: Watcher): nat {
    match w
    case Starting => 5 case Selecting => 4 case SendingTimeout => 3 case Leaving(_) => 1 case Gone(_) => 0
  }

  function BodyRank(b: Body): nat {
    match b
    case Unborn => 5 case Running => 4 case SendingPanic => 3 case ClosingDone(_) => 1 case Done(_) => 0
  }

  function CollectorRank(c: Collector): nat {
    match c
    case Waiting => 4 case Closing => 3 case Draining => 2 case Calling => 1 case Finished => 0
  }

  function Weight(h: Handler): nat { WatcherRank(h.watcher) + BodyRank(h.body) }

  function Measure(s: State): nat {
    Sum(s.handlers, Weight) + |s.buffer| + CollectorRank(s.collector) + Bit(!s.crashed)
  }

  lemma MoveLightens(h: Handler, a: Action, panics: bool, slow: bool)
    requires !OfCollector(a) && CanMove(h, a, panics, slow)
    ensures Weight(Move(h, a, panics, slow)) + |Message(a)| < Weight(h)
  {
  }

  lemma DoDecreases(env: Env, s: State, a: Action)
    requires Enabled(env, s, a)
    ensures Measure(Do(env, s, a)) < Measure(s)
  {
    if !OfCollector(a) {
      var h := Move(s.handlers[a.i], a, env.panics[a.i], env.slow[a.i]);
      MoveLightens(s.handlers[a.i], a, env.panics[a.i], env.slow[a.i]);
      SumUpdate(s.handlers, Weight, a.i, h);
    }
  }

  lemma {:induction false} RunDecreases(env: Env, s: State, run: seq<Action>)
    requires Legal(env, s, run)
    ensures |run| + Measure(Exec(env, s, run)) <= Measure(s)
    decreases |run|
  {
    if run != [] {
      DoDecreases(env, s, run[0]);
      RunDecreases(env, Do(env, s, run[0]), run[1..]);
    }
  }

  /** No interleaving goes on for more than ten steps a handler and five more. */
  lemma RunsAreBounded(env: Env, n: nat, run: seq<Action>)
    requires Legal(env, Init(n), run)
    ensures |run| <= 10 * n + 5
  {
    RunDecreases(env, Init(n), run);
    SumBound(Init(n).handlers, Weight, 10);
  }

  // ---- what the callback is told ---------------------------------------------------------------

  /** The acknowledgement says of every handler whether it timed out and whether it panicked, and each once. */
  ghost predicate Truthful(s: State, errors: seq<Error>) {
    && (forall i :: 0 <= i < |s.handlers| ==> s.handlers[i].watcher.Gone?)
    && (forall i :: 0 <= i < |s.handlers| ==> s.handlers[i].watcher.late || s.handlers[i].body.Done?)
    && (forall i :: 0 <= i < |s.handlers| ==>
         (multiset(errors)[TimeoutOf(i)] == Bit(s.handlers[i].watcher.late)
          && multiset(errors)[PanicOf(i)] == Bit(PanicSent(s.handlers[i]))))
    && (errors == [] <==> forall i :: 0 <= i < |s.handlers| ==> !TimeoutSent(s.handlers[i]) && !PanicSent(s.handlers[i]))
  }

  lemma FinishedIsTruthful(env: Env, s: State)
    requires Inv(env, s) && s.calls != []
    ensures s.calls == [s.collected] && Truthful(s, s.collected)
  {
    assert s.collected + s.buffer == s.collected;
    forall i | 0 <= i < |s.handlers|
      ensures s.handlers[i].watcher.Gone?
      ensures multiset(s.collected)[TimeoutOf(i)] == Bit(s.handlers[i].watcher.late)
      ensures multiset(s.collected)[PanicOf(i)] == Bit(PanicSent(s.handlers[i]))
    {
      AllGone(env, s, i);
      assert Copies(s, TimeoutOf(i)) == Bit(WasSent(s.handlers, TimeoutOf(i)));
      assert Copies(s, PanicOf(i)) == Bit(WasSent(s.handlers, PanicOf(i)));
    }
    if s.collected != [] {
      var e := s.collected[0];
      assert multiset(s.collected)[e] > 0 && Copies(s, e) == Bit(WasSent(s.handlers, e));
    }
  }

  /**
   * In every interleaving, whatever the handlers do: at most one call back, after every watcher has gone, each
   * handler having finished or timed out, with exactly the errors that were sent. Of a handler that never returns it
   * says that it timed out.
   */
  lemma Acknowledgement(env: Env, n: nat, run: seq<Action>)
    requires Fits(env, n) && Legal(env, Init(n), run)
    ensures var s := Exec(env, Init(n), run);
      && s.wg >= 0 && |s.buffer| <= n && |s.calls| <= 1
      && (s.calls != [] ==> Truthful(s, s.calls[0]) && HangersAreTold(env, s.calls[0]))
  {
    InitInv(env, n);
    ExecKeepsInv(env, Init(n), run);
    RunLength(env, Init(n), run);
    var s := Exec(env, Init(n), run);
    if s.calls != [] {
      FinishedIsTruthful(env, s);
      TruthTellsHangers(env, s, s.calls[0]);
    }
  }

  predicate HangersAreTold(env: Env, errors: seq<Error>) {
    forall i :: 0 <= i < |env.hangs| && env.hangs[i] ==> multiset(errors)[TimeoutOf(i)] == 1
  }

  lemma TruthTellsHangers(env: Env, s: State, errors: seq<Error>)
    requires HandlersOk(env, s.handlers) && Truthful(s, errors)
    ensures HangersAreTold(env, errors)
  {
    forall i | 0 <= i < |env.hangs| && env.hangs[i] ensures multiset(errors)[TimeoutOf(i)] == 1 {
      assert !s.handlers[i].body.Done?;
    }
  }

  lemma {:induction false} RunLength(env: Env, s: State, run: seq<Action>)
    requires Legal(env, s, run)
    ensures |Exec(env, s, run).handlers| == |s.handlers|
    decreases |run|
  {
    if run != [] {
      RunLength(env, Do(env, s, run[0]), run[1..]);
    }
  }

  // ---- when the process goes down --------------------------------------------------------------

  /** A handler that both panics and runs into its timeout. */
  predicate Overlaps(env: Env, i: nat) {
    i < |env.panics| && i < |env.slow| && env.panics[i] && env.slow[i]
  }

  /** The only send that can meet a closed channel is the panic of a handler given up on before. */
  lemma CrashNeedsOverlap(env: Env, s: State, a: Action)
    requires Inv(env, s) && Enabled(env, s, a) && Do(env, s, a).crashed
    ensures a.SendPanic? && s.handlers[a.i].watcher == Gone(true) && Overlaps(env, a.i)
  {
    if !s.handlers[a.i].watcher.Gone? {
      AliveKeepsOpen(env, s, a.i);
    }
  }

  lemma {:induction false} CrashedRunOverlaps(env: Env, s: State, run: seq<Action>)
    requires Inv(env, s) && Legal(env, s, run) && !s.crashed && Exec(env, s, run).crashed
    ensures exists i :: Overlaps(env, i)
    decreases |run|
  {
    if run != [] {
      var s' := Do(env, s, run[0]);
      DoKeepsInv(env, s, run[0]);
      if s'.crashed {
        CrashNeedsOverlap(env, s, run[0]);
      } else {
        CrashedRunOverlaps(env, s', run[1..]);
      }
    }
  }

  /** Only handler `i` is late, and it is still running, besides those that never return. */
  predicate OnlyLate(env: Env, s: State, i: nat) {
    && i < |s.handlers| <= |env.hangs| && !s.crashed
    && s.handlers[i].body in {Unborn, Running}
    && forall j :: 0 <= j < |s.handlers| && j != i && !env.hangs[j] ==> !Late(s.handlers[j])
  }

  lemma OnlyLateHasRoom(env: Env, s: State, i: nat, j: nat)
    requires Inv(env, s) && OnlyLate(env, s, i) && j < |s.handlers| && Raised(s.handlers[j]) > Sent(s.handlers[j])
    ensures |s.buffer| < |s.handlers|
  {
    RaisedHasRoom(env, s, j);
    SumBound(s.handlers, Raised, 1);
  }

  /** A message raised and not sent is not counted in the buffer. */
  lemma RaisedHasRoom(env: Env, s: State, j: nat)
    requires Inv(env, s) && j < |s.handlers| && Raised(s.handlers[j]) > Sent(s.handlers[j])
    ensures |s.buffer| < Sum(s.handlers, Raised)
  {
    SumLessEqual(s.handlers, Sent, Raised);
  }

  /** How handler `j` gets its watcher away when nothing blocks; only `late` ones take the timeout. */
  function Forward(h: Handler, j: nat, panics: bool, late: bool): Action {
    match h.watcher
    case Starting => Spawn(j)
    case SendingTimeout => SendTimeout(j)
    case Leaving(_) => WgDone(j)
    case Gone(_) => WgDone(j)
    case Selecting =>
      if late then TakeTimeout(j)
      else match h.body
        case Running => if panics then Panic(j) else Return(j)
        case SendingPanic => SendPanic(j)
        case ClosingDone(_) => CloseDone(j)
        case _ => TakeDone(j)
  }

  function CollectorForward(s: State): Action {
    match s.collector
    case Waiting => WaitReturns
    case Closing => CloseChannel
    case Draining => if s.buffer == [] then EndDrain else Receive
    case _ => Call
  }

  /** While watchers are there, some watcher is, and it can be moved. */
  lemma SomeAlive(env: Env, s: State) returns (j: nat)
    requires Inv(env, s) && s.wg > 0
    ensures j < |s.handlers| && !s.handlers[j].watcher.Gone?
  {
    SumPositive(s.handlers, Alive);
    j :| 0 <= j < |s.handlers| && Alive(s.handlers[j]) > 0;
  }

  /** A step towards the close of the channel that leaves handler `i` the only late one. */
  lemma StepToClose(env: Env, s: State, i: nat) returns (a: Action)
    requires Inv(env, s) && OnlyLate(env, s, i) && env.slow[i] && !s.closed
    ensures Enabled(env, s, a) && OnlyLate(env, Do(env, s, a), i)
  {
    if s.wg > 0 {
      var j := SomeAlive(env, s);
      var h := s.handlers[j];
      a := Forward(h, j, env.panics[j], j == i || env.hangs[j]);
      ForwardMoves(h, j, env.panics[j], env.slow[j], j == i || env.hangs[j]);
      if Sends(a) {
        OnlyLateHasRoom(env, s, i, j);
      }
    } else {
      AllGone(env, s, i);
      a := CollectorForward(s);
    }
  }

  lemma ForwardMoves(h: Handler, j: nat, panics: bool, slow: bool, late: bool)
    requires HandlerOk(h, panics, slow) && !h.watcher.Gone? && (late ==> slow && h.body in {Unborn, Running})
    ensures var a := Forward(h, j, panics, late);
      && !OfCollector(a) && a.i == j && CanMove(h, a, panics, slow)
      && (Sends(a) ==> Raised(h) > Sent(h)) && (late ==> !a.Return?)
      && (if late then Move(h, a, panics, slow).body in {Unborn, Running} else !Late(h) ==> !Late(Move(h, a, panics, slow)))
  {
  }

  /** With one late handler everything else can be brought to the close of the channel. */
  lemma {:induction false} DriveToClose(env: Env, s: State, i: nat) returns (run: seq<Action>)
    requires Inv(env, s) && OnlyLate(env, s, i) && env.slow[i] && !s.closed
    ensures Legal(env, s, run)
    ensures var end := Exec(env, s, run);
      Inv(env, end) && end.closed && OnlyLate(env, end, i) && end.handlers[i].watcher.Gone?
    decreases Measure(s)
  {
    var a := StepToClose(env, s, i);
    DoKeepsInv(env, s, a);
    DoDecreases(env, s, a);
    var s' := Do(env, s, a);
    if s'.closed {
      run := [a];
      ExecOne(env, s, a);
      ClosedMeansGone(env, s', i);
    } else {
      var rest := DriveToClose(env, s', i);
      ExecOne(env, s, a);
      ExecConcat(env, s, [a], rest);
      run := [a] + rest;
    }
  }

  lemma ClosedMeansGone(env: Env, s: State, i: nat)
    requires Inv(env, s) && s.closed && i < |s.handlers|
    ensures s.handlers[i].watcher.Gone?
  {
    AllGone(env, s, i);
  }

  lemma ExecOne(env: Env, s: State, a: Action)
    requires Enabled(env, s, a)
    ensures Legal(env, s, [a]) && Exec(env, s, [a]) == Do(env, s, a)
  {
    assert [a][1..] == [];
  }

  lemma {:induction false} ExecConcat(env: Env, s: State, a: seq<Action>, b: seq<Action>)
    requires Legal(env, s, a) && Legal(env, Exec(env, s, a), b)
    ensures Legal(env, s, a + b) && Exec(env, s, a + b) == Exec(env, Exec(env, s, a), b)
    decreases |a|
  {
    if a == [] {
      assert a + b == b;
    } else {
      var s' := Do(env, s, a[0]);
      assert (a + b)[0] == a[0] && (a + b)[1..] == a[1..] + b;
      ExecConcat(env, s', a[1..], b);
    }
  }

  lemma LatePanicCrashes(env: Env, s: State, i: nat)
    requires Inv(env, s) && OnlyLate(env, s, i) && Overlaps(env, i) && s.closed && s.handlers[i].watcher.Gone?
    ensures Legal(env, s, [Panic(i)] + [SendPanic(i)]) && Exec(env, s, [Panic(i)] + [SendPanic(i)]).crashed
  {
    ExecOne(env, s, Panic(i));
    var s' := Do(env, s, Panic(i));
    ExecOne(env, s', SendPanic(i));
    ExecConcat(env, s, [Panic(i)], [SendPanic(i)]);
  }

  /** A handler that times out and panics afterwards can find the channel closed. */
  lemma OverlapCrashes(env: Env, n: nat, i: nat) returns (run: seq<Action>)
    requires Fits(env, n) && Overlaps(env, i)
    ensures Legal(env, Init(n), run) && Exec(env, Init(n), run).crashed
  {
    InitInv(env, n);
    var first := DriveToClose(env, Init(n), i);
    LatePanicCrashes(env, Exec(env, Init(n), first), i);
    ExecConcat(env, Init(n), first, [Panic(i)] + [SendPanic(i)]);
    run := first + ([Panic(i)] + [SendPanic(i)]);
  }

  /** A send hits the closed channel in some interleaving exactly when some handler both panics and times out. */
  lemma CrashesExactlyWhen(env: Env, n: nat)
    requires Fits(env, n)
    ensures (exists run :: Legal(env, Init(n), run) && Exec(env, Init(n), run).crashed) <==> (exists i :: Overlaps(env, i))
  {
    if run :| Legal(env, Init(n), run) && Exec(env, Init(n), run).crashed {
      InitInv(env, n);
      CrashedRunOverlaps(env, Init(n), run);
    }
    if i :| Overlaps(env, i) {
      var run := OverlapCrashes(env, n, i);
    }
  }

  // ---- when nobody is ever called back -----------------------------------------------------------

  function Count(bs: seq<bool>): nat {
    if bs == [] then 0 else Bit(bs[0]) + Count(bs[1..])
  }

  /** Comparing a sum over the handlers with how many panic and how many can be late. */
  lemma {:induction false} SumAgainstCounts(hs: seq<Handler>, f: Handler -> nat, ps: seq<bool>, ss: seq<bool>)
    requires |hs| == |ps| == |ss|
    ensures (forall i :: 0 <= i < |hs| ==> f(hs[i]) <= Bit(ps[i]) + Bit(ss[i])) ==> Sum(hs, f) <= Count(ps) + Count(ss)
    ensures (forall i :: 0 <= i < |hs| ==> f(hs[i]) == Bit(ps[i]) + Bit(ss[i])) ==> Sum(hs, f) == Count(ps) + Count(ss)
  {
    if hs != [] {
      SumAgainstCounts(hs[1..], f, ps[1..], ss[1..]);
    }
  }

  lemma RaisedAtMost(env: Env, s: State)
    requires Inv(env, s)
    ensures Sum(s.handlers, Raised) <= Count(env.panics) + Count(env.slow)
  {
    SumAgainstCounts(s.handlers, Raised, env.panics, env.slow);
  }

  /** With no more possible messages than places no send blocks, and something can always happen before the call back. */
  lemma Progress(env: Env, s: State) returns (a: Action)
    requires Inv(env, s) && !s.crashed && s.calls == []
    requires Count(env.panics) + Count(env.slow) <= |s.handlers|
    ensures Enabled(env, s, a)
  {
    if s.wg > 0 {
      var j := SomeAlive(env, s);
      a := Forward(s.handlers[j], j, env.panics[j], env.hangs[j]);
      ForwardMoves(s.handlers[j], j, env.panics[j], env.slow[j], env.hangs[j]);
      if Sends(a) {
        RaisedHasRoom(env, s, j);
        RaisedAtMost(env, s);
      }
    } else {
      a := CollectorForward(s);
    }
  }

  /** Nothing can happen any more, and the callback was not called. */
  ghost predicate Deadlock(env: Env, s: State) {
    !s.crashed && s.calls == [] && forall a :: !Enabled(env, s, a)
  }

  /** The channel is full and the collector waits for a watcher that waits, itself or through its handler, for the channel. */
  predicate StuckOn(s: State, k: nat) {
    && s.collector == Waiting && !s.closed && !s.crashed && |s.buffer| >= |s.handlers|
    && k < |s.handlers|
    && (s.handlers[k].watcher == SendingTimeout
        || (s.handlers[k].watcher == Selecting && s.handlers[k].body == SendingPanic))
  }

  lemma StuckStays(env: Env, s: State, k: nat, a: Action)
    requires Inv(env, s) && StuckOn(s, k) && Enabled(env, s, a)
    ensures StuckOn(Do(env, s, a), k)
  {
    AliveKeepsOpen(env, s, k);
  }

  /** Once stuck, always stuck: what is left to run ends without a call back. */
  lemma {:induction false} StuckDeadlocks(env: Env, s: State, k: nat) returns (run: seq<Action>)
    requires Inv(env, s) && StuckOn(s, k)
    ensures Legal(env, s, run) && Deadlock(env, Exec(env, s, run))
    decreases Measure(s)
  {
    if a :| Enabled(env, s, a) {
      StuckStays(env, s, k, a);
      DoKeepsInv(env, s, a);
      DoDecreases(env, s, a);
      var rest := StuckDeadlocks(env, Do(env, s, a), k);
      ExecOne(env, s, a);
      ExecConcat(env, s, [a], rest);
      run := [a] + rest;
    } else {
      run := [];
    }
  }

  /** The handler sends every message it can, a panic before a timeout, and its watcher does not leave. */
  predicate Hoards(h: Handler, panics: bool) {
    && h.watcher in {Starting, Selecting, SendingTimeout, Leaving(true)}
    && h.body in {Unborn, Running, SendingPanic, ClosingDone(true)}
    && (h.watcher in {SendingTimeout, Leaving(true)} && panics ==> h.body == ClosingDone(true))
  }

  predicate Hoarding(env: Env, s: State)
    requires Fits(env, |s.handlers|)
  {
    s.collector == Waiting && !s.crashed && forall j :: 0 <= j < |s.handlers| ==> Hoards(s.handlers[j], env.panics[j])
  }

  /** The next step of such a handler, unless it has sent all it can. */
  function Hoard(h: Handler, j: nat, panics: bool, slow: bool): Option<Action> {
    if h.watcher == Starting then Some(Spawn(j))
    else if h.body == Running && panics then Some(Panic(j))
    else if h.body == SendingPanic then Some(SendPanic(j))
    else if h.watcher == Selecting && slow then Some(TakeTimeout(j))
    else if h.watcher == SendingTimeout then Some(SendTimeout(j))
    else None
  }

  lemma HoardMoves(h: Handler, j: nat, panics: bool, slow: bool)
    requires HandlerOk(h, panics, slow) && Hoards(h, panics)
    ensures match Hoard(h, j, panics, slow)
      case None => Sent(h) == Bit(panics) + Bit(slow)
      case Some(a) =>
        (!OfCollector(a) && a.i == j && CanMove(h, a, panics, slow)
         && Hoards(Move(h, a, panics, slow), panics)
         && (Sends(a) ==> h.watcher == SendingTimeout || (h.watcher == Selecting && h.body == SendingPanic)))
  {
  }

  /** With more possible messages than places some handler has not sent all of its own. */
  lemma SomeHoarder(env: Env, s: State) returns (j: nat)
    requires Inv(env, s) && Hoarding(env, s) && Count(env.panics) + Count(env.slow) > |s.handlers|
    ensures j < |s.handlers| && Hoard(s.handlers[j], j, env.panics[j], env.slow[j]).Some?
  {
    if forall j: nat :: j < |s.handlers| ==> Hoard(s.handlers[j], j, env.panics[j], env.slow[j]).None? {
      forall j | 0 <= j < |s.handlers| ensures Sent(s.handlers[j]) == Bit(env.panics[j]) + Bit(env.slow[j]) {
        HoardMoves(s.handlers[j], j, env.panics[j], env.slow[j]);
      }
      SumAgainstCounts(s.handlers, Sent, env.panics, env.slow);
      assert false;
    }
    j :| 0 <= j < |s.handlers| && Hoard(s.handlers[j], j, env.panics[j], env.slow[j]).Some?;
  }

  lemma {:induction false} DriveToStuck(env: Env, s: State) returns (run: seq<Action>, k: nat)
    requires Inv(env, s) && Hoarding(env, s) && Count(env.panics) + Count(env.slow) > |s.handlers|
    ensures Legal(env, s, run) && StuckOn(Exec(env, s, run), k)
    decreases Measure(s)
  {
    var j := SomeHoarder(env, s);
    var a := Hoard(s.handlers[j], j, env.panics[j], env.slow[j]).value;
    HoardMoves(s.handlers[j], j, env.panics[j], env.slow[j]);
    AliveKeepsOpen(env, s, j);
    if Sends(a) && |s.buffer| >= |s.handlers| {
      run, k := [], j;
    } else {
      DoKeepsInv(env, s, a);
      DoDecreases(env, s, a);
      var rest;
      rest, k := DriveToStuck(env, Do(env, s, a));
      ExecOne(env, s, a);
      ExecConcat(env, s, [a], rest);
      run := [a] + rest;
    }
  }

  /** With more possible messages than places some interleaving never calls back. */
  lemma TooManyMessagesDeadlock(env: Env, n: nat) returns (run: seq<Action>)
    requires Fits(env, n) && Count(env.panics) + Count(env.slow) > n
    ensures Legal(env, Init(n), run) && Deadlock(env, Exec(env, Init(n), run))
  {
    InitInv(env, n);
    var first, k := DriveToStuck(env, Init(n));
    ExecKeepsInv(env, Init(n), first);
    var rest := StuckDeadlocks(env, Exec(env, Init(n), first), k);
    ExecConcat(env, Init(n), first, rest);
    run := first + rest;
  }

  /** Some interleaving never calls back exactly when the possible panics and timeouts outnumber the handlers. */
  lemma DeadlocksExactlyWhen(env: Env, n: nat)
    requires Fits(env, n)
    ensures (exists run :: Legal(env, Init(n), run) && Deadlock(env, Exec(env, Init(n), run)))
       <==> Count(env.panics) + Count(env.slow) > n
  {
    if run :| Legal(env, Init(n), run) && Deadlock(env, Exec(env, Init(n), run)) {
      var s := Exec(env, Init(n), run);
      InitInv(env, n);
      ExecKeepsInv(env, Init(n), run);
      RunLength(env, Init(n), run);
      if Count(env.panics) + Count(env.slow) <= n {
        var a := Progress(env, s);
      }
    }
    if Count(env.panics) + Count(env.slow) > n {
      var run := TooManyMessagesDeadlock(env, n);
    }
  }

  lemma {:induction false} DisjointFits(ps: seq<bool>, ss: seq<bool>)
    requires |ps| == |ss| && forall i :: 0 <= i < |ps| ==> !(ps[i] && ss[i])
    ensures Count(ps) + Count(ss) <= |ps|
  {
    if ps != [] {
      DisjointFits(ps[1..], ss[1..]);
    }
  }

  /** The run has come to its end, with handlers none of which both panics and times out. */
  ghost predicate Over(env: Env, s: State, run: seq<Action>)
    requires Legal(env, s, run)
  {
    (forall i :: !Overlaps(env, i)) && forall a :: !Enabled(env, Exec(env, s, run), a)
  }

  /**
   * If no handler both panics and times out, no send ever blocks for good or meets a closed channel: every
   * interleaving can be continued until the callback has been called, once, with exactly what happened. A handler that
   * never returns does not keep it from being called, and is told of as timed out.
   */
  lemma AcknowledgedOnce(env: Env, n: nat, run: seq<Action>)
    requires Fits(env, n) && Legal(env, Init(n), run) && Over(env, Init(n), run)
    ensures var s := Exec(env, Init(n), run);
      !s.crashed && |s.calls| == 1 && Truthful(s, s.calls[0]) && HangersAreTold(env, s.calls[0])
  {
    CrashesExactlyWhen(env, n);
    forall i | 0 <= i < n ensures !(env.panics[i] && env.slow[i]) { assert !Overlaps(env, i); }
    DisjointFits(env.panics, env.slow);
    DeadlocksExactlyWhen(env, n);
    Acknowledgement(env, n, run);
    assert !Deadlock(env, Exec(env, Init(n), run));
  }

  // ---- the bus ---------------------------------------------------------------------------------

  /** The subscriber lists. Handlers are only ever appended. */
  class Bus<H> {
    var subscribers: map<string, seq<H>>

    function Handlers(eventType: string): seq<H>
      reads this
    {
      if eventType in subscribers then subscribers[eventType] else []
    }

    constructor ()
      ensures forall t :: Handlers(t) == []
    {
      subscribers := map[];
    }

    method Subscribe(eventType: string, handler: H)
      modifies this
      ensures Handlers(eventType) == old(Handlers(eventType)) + [handler]
      ensures forall t :: t != eventType ==> Handlers(t) == old(Handlers(t))
    {
      if eventType !in subscribers {
        subscribers := subscribers[eventType := []];
      }
      subscribers := subscribers[eventType := subscribers[eventType] + [handler]];
    }

    /**
     * Whatever the handlers do and however they interleave: every handler subscribed by now takes part and nobody
     * else, it comes to an end, and there is at most one call back, which tells of each of them what happened; when
     * none both panics and times out there is exactly one.
     */
    method PublishWithAck(eventType: string) returns (start: State)
      ensures forall env, run :: Fits(env, |Handlers(eventType)|) && Legal(env, start, run) ==>
        var n, end := |Handlers(eventType)|, Exec(env, start, run);
        && |end.handlers| == n && |run| <= 10 * n + 5
        && |end.calls| <= 1 && (end.calls != [] ==> Truthful(end, end.calls[0]))
      ensures forall env, run :: Fits(env, |Handlers(eventType)|) && Legal(env, start, run) && Over(env, start, run) ==>
        |Exec(env, start, run).calls| == 1
    {
      var n := if eventType in subscribers then |subscribers[eventType]| else 0;
      start := Init(n);
      forall env, run | Fits(env, n) && Legal(env, start, run)
        ensures |Exec(env, start, run).handlers| == n && |run| <= 10 * n + 5
        ensures |Exec(env, start, run).calls| <= 1
        ensures Exec(env, start, run).calls != [] ==> Truthful(Exec(env, start, run), Exec(env, start, run).calls[0])
      {
        RunsAreBounded(env, n, run);
        RunLength(env, start, run);
        Acknowledgement(env, n, run);
      }
      forall env, run | Fits(env, n) && Legal(env, start, run) && Over(env, start, run)
        ensures |Exec(env, start, run).calls| == 1
      {
        AcknowledgedOnce(env, n, run);
      }
    }
  }
}
