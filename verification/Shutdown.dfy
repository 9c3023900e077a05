/** Counting the requests in flight through a graceful shutdown. */
module Shutdown {
  import opened Tally

  /** Where one request is in `gracefulShutdownMiddleware`. */
  datatype Request =
    | New
    | Rejected
    | Admitted
    | Counted
    | Serving
    | Served
    | Uncounted
    | Over

  /** `active` is the atomic counter, `wg` the counter of the wait group, `waited` that `Wait` has returned. */
  datatype State = State(requests: seq<Request>, active: int, wg: int, cancelled: bool, waited: bool)

  datatype Action =
    | Check(i: nat)
    | AtomicAdd(i: nat)
    | WgAdd(i: nat)
    | Return(i: nat)
    | AtomicDec(i: nat)
    | WgDone(i: nat)
    | Cancel
    | WaitReturns

  function Init(n: nat): State { State(seq(n, _ => New), 0, 0, false, false) }

  predicate Enabled(s: State, a: Action) {
    if a.Cancel? then !s.cancelled
    else if a.WaitReturns? then s.cancelled && !s.waited && s.wg == 0
    else a.i < |s.requests| && s.requests[a.i] == Before(a)
  }

  /** Where the request is before its step. */
  function Before(a: Action): Request
    requires !a.Cancel? && !a.WaitReturns?
  {
    match a
    case Check(_) => New
    case AtomicAdd(_) => Admitted
    case WgAdd(_) => Counted
    case Return(_) => Serving
    case AtomicDec(_) => Served
    case WgDone(_) => Uncounted
  }

  function Do(s: State, a: Action): State
    requires Enabled(s, a)
  {
    match a
    case Check(i) => s.(requests := s.requests[i := if s.cancelled then Rejected else Admitted])
    case AtomicAdd(i) => s.(requests := s.requests[i := Counted], active := s.active + 1)
    case WgAdd(i) => s.(requests := s.requests[i := Serving], wg := s.wg + 1)
    case Return(i) => s.(requests := s.requests[i := Served])
    case AtomicDec(i) => s.(requests := s.requests[i := Uncounted], active := s.active - 1)
    case WgDone(i) => s.(requests := s.requests[i := Over], wg := s.wg - 1)
    case Cancel => s.(cancelled := true)
    case WaitReturns => s.(waited := true)
  }

  predicate Legal(s: State, run: seq<Action>)
    decreases |run|
  {
    run == [] || (Enabled(s, run[0]) && Legal(Do(s, run[0]), run[1..]))
  }

  function Exec(s: State, run: seq<Action>): State
    requires Legal(s, run)
    decreases |run|
  {
    if run == [] then s else Exec(Do(s, run[0]), run[1..])
  }

  // ---- the two counters ------------------------------------------------------------------------

  /** Between its own atomic increment and decrement. */
  function InActive(r: Request): nat { Bit(r.Counted? || r.Serving? || r.Served?) }

  /** Between its own `Add` and `Done`. */
  function InGroup(r: Request): nat { Bit(r.Serving? || r.Served? || r.Uncounted?) }

  predicate Inv(s: State) {
    && s.active == Sum(s.requests, InActive)
    && s.wg == Sum(s.requests, InGroup)
    && (s.waited ==> s.cancelled)
  }

  lemma DoKeepsInv(s: State, a: Action)
    requires Inv(s) && Enabled(s, a)
    ensures Inv(Do(s, a))
  {
    if !a.Cancel? && !a.WaitReturns? {
      SumUpdate(s.requests, InActive, a.i, Do(s, a).requests[a.i]);
      SumUpdate(s.requests, InGroup, a.i, Do(s, a).requests[a.i]);
    }
  }

  lemma {:induction false} ExecKeepsInv(s: State, run: seq<Action>)
    requires Inv(s) && Legal(s, run)
    ensures Inv(Exec(s, run)) && |Exec(s, run).requests| == |s.requests|
    decreases |run|
  {
    if run != [] {
      DoKeepsInv(s, run[0]);
      ExecKeepsInv(Do(s, run[0]), run[1..]);
    }
  }

  /** In every interleaving each counter is the number of requests between their own increment and decrement. */
  lemma CountersCount(n: nat, run: seq<Action>)
    requires Legal(Init(n), run)
    ensures var s := Exec(Init(n), run);
      && 0 <= s.active == Sum(s.requests, InActive) <= n
      && 0 <= s.wg == Sum(s.requests, InGroup) <= n
  {
    SumBound(Init(n).requests, InActive, 0);
    SumBound(Init(n).requests, InGroup, 0);
    ExecKeepsInv(Init(n), run);
    SumBound(Exec(Init(n), run).requests, InActive, 1);
    SumBound(Exec(Init(n), run).requests, InGroup, 1);
  }

  // ---- after the cancellation ------------------------------------------------------------------

  predicate Closed(s: State, i: nat) {
    i < |s.requests| && s.cancelled && s.requests[i] in {New, Rejected}
  }

  /** A request not yet checked when `shutdownCancel` ran is never counted and never served. */
  lemma {:induction false} LateRequestsAreRejected(s: State, run: seq<Action>, i: nat)
    requires Legal(s, run) && Closed(s, i)
    ensures Closed(Exec(s, run), i)
    decreases |run|
  {
    if run != [] {
      LateRequestsAreRejected(Do(s, run[0]), run[1..], i);
    }
  }

  // ---- after Wait returned ---------------------------------------------------------------------

  /** Past the check and not yet in the wait group. */
  predicate InLimbo(r: Request) { r.Admitted? || r.Counted? }

  predicate Settled(s: State) {
    s.cancelled && forall i :: 0 <= i < |s.requests| ==> s.requests[i] in {New, Rejected, Over}
  }

  lemma {:induction false} SettledStays(s: State, run: seq<Action>)
    requires Legal(s, run) && Settled(s)
    ensures Settled(Exec(s, run))
    decreases |run|
  {
    if run != [] {
      SettledStays(Do(s, run[0]), run[1..]);
    }
  }

  /** An empty wait group leaves nobody being served; without limbo nobody is left at all. */
  lemma EmptyGroup(s: State)
    requires Inv(s) && s.cancelled && s.wg == 0
    ensures forall i :: 0 <= i < |s.requests| ==> s.requests[i] in {New, Rejected, Over} || InLimbo(s.requests[i])
  {
    SumPositive(s.requests, InGroup);
    forall i | 0 <= i < |s.requests| ensures InGroup(s.requests[i]) == 0 {}
  }

  /** Some request reaches its handler after `s`. */
  ghost predicate MayServe(s: State) {
    exists run, i :: Legal(s, run) && 0 <= i < |s.requests| && |Exec(s, run).requests| == |s.requests|
      && Exec(s, run).requests[i].Serving?
  }

  lemma LimboServes(s: State, i: nat)
    requires i < |s.requests| && InLimbo(s.requests[i])
    ensures MayServe(s)
  {
    if s.requests[i].Counted? {
      CountedServes(s, i);
      assert Exec(s, [WgAdd(i)]).requests[i].Serving?;
    } else {
      var s' := Do(s, AtomicAdd(i));
      var run := [AtomicAdd(i), WgAdd(i)];
      CountedServes(s', i);
      assert run[1..] == [WgAdd(i)];
      assert Legal(s, run) && Exec(s, run) == Exec(s', [WgAdd(i)]);
      assert Exec(s, run).requests[i].Serving?;
    }
  }

  lemma CountedServes(s: State, i: nat)
    requires i < |s.requests| && s.requests[i].Counted?
    ensures Legal(s, [WgAdd(i)])
    ensures Exec(s, [WgAdd(i)]) == s.(requests := s.requests[i := Serving], wg := s.wg + 1)
  {
    assert [WgAdd(i)][1..] == [];
  }

  /**
   * `Wait` returns in `s`: whether a handler can still run afterwards is exactly whether a request sits between the
   * check and `Add`. The atomic counter need not show it.
   */
  lemma QuietAfterWaitExactlyWhen(n: nat, run: seq<Action>)
    requires Legal(Init(n), run) && Enabled(Exec(Init(n), run), WaitReturns)
    ensures var s := Exec(Init(n), run);
      MayServe(Do(s, WaitReturns)) <==> exists i :: 0 <= i < |s.requests| && InLimbo(s.requests[i])
  {
    CountersCount(n, run);
    var s := Exec(Init(n), run);
    EmptyGroup(s);
    if exists i :: 0 <= i < |s.requests| && InLimbo(s.requests[i]) {
      var i :| 0 <= i < |s.requests| && InLimbo(s.requests[i]);
      LimboServes(Do(s, WaitReturns), i);
    } else {
      forall after, i | Legal(Do(s, WaitReturns), after) && 0 <= i < |s.requests|
        && |Exec(Do(s, WaitReturns), after).requests| == |s.requests|
        ensures !Exec(Do(s, WaitReturns), after).requests[i].Serving?
      {
        SettledStays(Do(s, WaitReturns), after);
      }
    }
  }

  /** With nobody in limbo, `Wait` returning means that both counters are and stay zero. */
  lemma {:induction false} QuietCounters(s: State, run: seq<Action>)
    requires Inv(s) && Settled(s) && Legal(s, run)
    ensures Exec(s, run).active == 0 && Exec(s, run).wg == 0
  {
    ExecKeepsInv(s, run);
    SettledStays(s, run);
    var end := Exec(s, run);
    SumBound(end.requests, InActive, 0);
    SumBound(end.requests, InGroup, 0);
  }

  /** Limbo does happen: one request, checked before the cancellation, is still on its way when `Wait` returns. */
  lemma LimboHappens()
    ensures var run := [Check(0), Cancel, WaitReturns];
      Legal(Init(1), run) && Exec(Init(1), run).waited && Exec(Init(1), run).active == 0 && MayServe(Exec(Init(1), run))
  {
    var s1 := Do(Init(1), Check(0));
    var s2 := Do(s1, Cancel);
    assert [Check(0), Cancel, WaitReturns][1..] == [Cancel, WaitReturns];
    assert [Cancel, WaitReturns][1..] == [WaitReturns] && [WaitReturns][1..] == [];
    assert Legal(s2, [WaitReturns]) && Legal(s1, [Cancel, WaitReturns]);
    LimboServes(Do(s2, WaitReturns), 0);
  }
}
